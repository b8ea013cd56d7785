// `Object::set_property_value` on its own: what it raises and when it succeeds, that the
// policies agree, that the value reads back, and that setting it again does nothing.
module PropertyWrites {
  import opened Options
  import opened PropertyTypes
  import opened Store
  import opened Engine
  import opened Framing
  import opened FrameProofs
  import opened CreateRules
  import opened Policies
  import opened Reading
  import opened ReadBack
  import opened Idempotence
  import opened Validation
  import opened Runs

  /** The value obeys the rule and does not name the object whose property it is for. */
  ghost predicate Settable(s: Schema, x: State, t: nat, row: nat, c: nat, v: Value, rule: Rule)
    requires t < |s|
  {
    c < |s[t].props| ==>
      && PropFresh(s, s[t].props[c], v, true, rule)
      && ((rule == NoRepeatedKeys && s[t].pk.None?) || NameAt(s, x, t, row) !in PropNames(s, s[t].props[c], v, true))
  }

  /** The property can be set: the row and the column exist, and it is not the key. */
  predicate Writable(s: Schema, x: State, t: nat, row: nat, c: nat)
    requires t < |s|
  {
    row < Count(x, t) && c < |s[t].props| && s[t].pk != Some(c)
  }

  // ----- the policies agree

  lemma SetPropAgrees(s: Schema, x: State, t: nat, row: nat, c: nat, v: Value)
    requires Wf(s, x) && t < |s| && Writable(s, x, t, row, c) && Settable(s, x, t, row, c, v, NoAncestors)
    ensures var p := SetProp(s, x, t, row, c, v, UpdateModified, false, true); var q := SetProp(s, x, t, row, c, v, UpdateAll, false, true);
      p.Outcome() == q.Outcome() && p.st.rows == q.st.rows && (p.Ok? ==> SameContent(p.st, q.st))
  {
    var p, q := SetProp(s, x, t, row, c, v, UpdateModified, false, true), SetProp(s, x, t, row, c, v, UpdateAll, false, true);
    assert Agree(s, x, x, {});
    assert Apart(s, x, {}, {NameAt(s, x, t, row)} + PropNames(s, s[t].props[c], v, true));
    SetPropSame(s, x, x, t, row, c, v, false, true, {});
    if p.Ok? {
      AgreeContent(s, p.st, q.st);
    }
  }

  /** Setting a property with `UpdateModified` and with `UpdateAll` raises the same
      exception or leaves the same contents. */
  lemma SetPoliciesAgree(s: Schema, x: State, t: nat, row: nat, c: nat, v: Value)
    requires Wf(s, x) && t < |s| && Settable(s, x, t, row, c, v, NoAncestors)
    ensures var p := SetPropertyValue(s, x, t, row, c, v, UpdateModified); var q := SetPropertyValue(s, x, t, row, c, v, UpdateAll);
      p.Outcome() == q.Outcome() && (p.Ok? ==> SameContent(p.st, q.st))
  {
    if Writable(s, x, t, row, c) {
      SetPropAgrees(s, x, t, row, c, v);
    }
  }

  lemma SettableLess(s: Schema, x: State, t: nat, row: nat, c: nat, v: Value, rule: Rule)
    requires t < |s| && Settable(s, x, t, row, c, v, NoRepeats)
    ensures Settable(s, x, t, row, c, v, rule)
  {
    if c < |s[t].props| {
      PropFreshLess(s, s[t].props[c], v, true, rule);
    }
  }

  // ----- the outcome

  /** `set_property_value` raises if the row or the property does not exist or the property is
      the key, without a write. Otherwise it raises exactly what the check complains about. */
  lemma SetOutcome(s: Schema, x: State, t: nat, row: nat, c: nat, v: Value, pol: Policy)
    requires Wf(s, x) && t < |s| && Settable(s, x, t, row, c, v, RuleFor(pol))
    ensures var r := SetPropertyValue(s, x, t, row, c, v, pol);
      && (row >= Count(x, t) ==> r == Err(x, InvalidRow))
      && (row < Count(x, t) && c >= |s[t].props| ==> r == Err(x, InvalidProperty(t)))
      && (row < Count(x, t) && s[t].pk == Some(c) ==> r == Err(x, ModifyPrimaryKey(t)))
      && (Writable(s, x, t, row, c) ==> ErrorOf(r) == ValueComplaint(s, x, r.st, t, c, v, pol == ForceCreate, true))
  {
    if Writable(s, x, t, row, c) {
      var r := SetProp(s, x, t, row, c, v, pol, false, true);
      var overwrite := if pol == UpdateModified then UpdateAll else pol;
      if pol == UpdateModified {
        SettableLess(s, x, t, row, c, v, NoAncestors);
        SettableLess(s, x, t, row, c, v, NoRepeatedKeys);
        SetPropAgrees(s, x, t, row, c, v);
      }
      SameRowsBounds(SetProp(s, x, t, row, c, v, overwrite, false, true), r.st);
      RowwiseRefl(s, x, PropNames(s, s[t].props[c], v, true));
      SetPropMeets(s, x, x, r.st, t, row, c, v, overwrite, false, true);
    }
  }

  /** It succeeds if and only if the property can be set and takes the value, with managed
      objects that exist at the end; and certainly if they exist at the start. */
  lemma SetSucceeds(s: Schema, x: State, t: nat, row: nat, c: nat, v: Value, pol: Policy)
    requires Wf(s, x) && t < |s| && Settable(s, x, t, row, c, v, RuleFor(pol))
    ensures var r := SetPropertyValue(s, x, t, row, c, v, pol);
      && (r.Ok? <==> Writable(s, x, t, row, c) && ValueAccepted(s, x, r.st, s[t].props[c], v, pol == ForceCreate, true))
      && (Writable(s, x, t, row, c) && ValueAccepted(s, x, x, s[t].props[c], v, pol == ForceCreate, true) ==> r.Ok?)
  {
    var r := SetPropertyValue(s, x, t, row, c, v, pol);
    SetOutcome(s, x, t, row, c, v, pol);
    if Writable(s, x, t, row, c) {
      ValueIff(s, x, r.st, t, c, v, pol == ForceCreate, true);
      if ValueAccepted(s, x, x, s[t].props[c], v, pol == ForceCreate, true) {
        SetPropFrame(s, x, t, row, c, v, pol, false, true);
        assert NoMoreRows(x, r.st);
        ValueMore(s, x, x, r.st, s[t].props[c], v, pol == ForceCreate, true);
      }
    }
  }

  // ----- the value reads back

  lemma ValueContent(s: Schema, b: State, x: State, y: State, p: Property, prior: Cell, cell: Cell, v: Value)
    requires ValidProperty(|s|, p) && ShowsValue(s, b, x, p, prior, cell, v, true) && SameContent(x, y)
    ensures ShowsValue(s, b, y, p, prior, cell, v, true)
  {
    var names := PropNames(s, p, v, true);
    ContentBetween(s, b, x, y, names);
    ValueStable(s, b, b, x, y, p, prior, cell, v, true, names);
  }

  /** Under every policy, a value that was set shows, with all its nested objects. */
  lemma SetShows(s: Schema, x: State, t: nat, row: nat, c: nat, v: Value, pol: Policy)
    requires Wf(s, x) && t < |s| && Settable(s, x, t, row, c, v, RuleFor(pol)) && SetPropertyValue(s, x, t, row, c, v, pol).Ok?
    ensures var y := SetPropertyValue(s, x, t, row, c, v, pol).st; var a := Addr(t, row, c);
      ShowsValue(s, x, y, s[t].props[c], Get(x, a), Get(y, a), v, true)
  {
    var p := s[t].props[c];
    var a := Addr(t, row, c);
    var y, z := SetProp(s, x, t, row, c, v, pol, false, true).st, SetProp(s, x, t, row, c, v, UpdateAll, false, true).st;
    if pol == ForceCreate {
      SetPropForced(s, x, t, row, c, v, false, true);
    } else if pol == UpdateModified {
      SettableLess(s, x, t, row, c, v, NoAncestors);
      SettableLess(s, x, t, row, c, v, NoRepeatedKeys);
      SetPropAgrees(s, x, t, row, c, v);
    }
    assert SameContent(z, y) && Get(z, a) == Get(y, a);
    SetPropShows(s, x, t, row, c, v, false, true);
    ValueContent(s, x, z, y, p, Get(x, a), Get(z, a), v);
  }

  /** Under every policy, reading the property gives back the very value that was set, and
      the other cells of objects that the value does not name are as before. */
  lemma SetRoundTrip(s: Schema, x: State, t: nat, row: nat, c: nat, v: Value, pol: Policy, a: Addr)
    requires Wf(s, x) && t < |s| && Settable(s, x, t, row, c, v, RuleFor(pol)) && SetPropertyValue(s, x, t, row, c, v, pol).Ok?
    ensures var y := SetPropertyValue(s, x, t, row, c, v, pol).st;
      && (StoredAsIs(s[t].props[c], v) ==> ReadProperty(s, y, t, row, c) == v)
      && (a in x.cells && a != Addr(t, row, c) && NameAt(s, x, a.t, a.r) !in PropNames(s, s[t].props[c], v, true) ==>
            Get(y, a) == Get(x, a))
  {
    var p := s[t].props[c];
    var y := SetPropertyValue(s, x, t, row, c, v, pol).st;
    SetShows(s, x, t, row, c, v, pol);
    SetPropFrame(s, x, t, row, c, v, pol, false, true);
    if StoredAsIs(p, v) {
      ShownIsRead(s, x, y, p, Get(x, Addr(t, row, c)), Get(y, Addr(t, row, c)), v, true);
    }
    if a in x.cells && a != Addr(t, row, c) && NameAt(s, x, a.t, a.r) !in PropNames(s, p, v, true) {
      Unchanged(s, x, y, PropNames(s, p, v, true), Own(t, row, c, c + 1), a);
    }
  }

  /** Setting the same value again with `UpdateModified` issues no write at all. */
  lemma SetTwice(s: Schema, x: State, t: nat, row: nat, c: nat, v: Value, pol: Policy)
    requires Wf(s, x) && t < |s| && Settable(s, x, t, row, c, v, RuleFor(pol)) && SetPropertyValue(s, x, t, row, c, v, pol).Ok?
    requires QuietValue(s, s[t].props[c], v)
    ensures var y := SetPropertyValue(s, x, t, row, c, v, pol).st;
      SetPropertyValue(s, y, t, row, c, v, UpdateModified) == Ok(y, row)
  {
    var y := SetPropertyValue(s, x, t, row, c, v, pol).st;
    SetShows(s, x, t, row, c, v, pol);
    SetPropFrame(s, x, t, row, c, v, pol, false, true);
    SetPropSettled(s, x, y, t, row, c, Get(x, Addr(t, row, c)), v, true);
  }

  // ----- scalars, null and managed objects, and lists of these

  /** Values without unmanaged objects. */
  predicate PlainValue(p: Property, v: Value) {
    if p.ty.list then v.Null? || (v.Values? && forall j :: 0 <= j < |v.elems| ==> Plain(v.elems[j])) else Plain(v)
  }

  /** A scalar of the type, null where it is allowed, or an object of the target type that exists. */
  predicate PlainFits(s: Schema, x: State, p: Property, v: Value)
    requires ValidProperty(|s|, p)
  {
    if !p.ty.list then (v.Null? && p.ty.nullable) || PlainItemFits(s, x, p, v)
    else
      && p.ty.base != LinkingObjects
      && ((v.Null? && !p.ty.nullable) || (v.Values? && forall j :: 0 <= j < |v.elems| ==> PlainItemFits(s, x, p, v.elems[j])))
  }

  predicate PlainItemFits(s: Schema, x: State, p: Property, v: Value)
    requires ValidProperty(|s|, p)
  {
    if p.ty.base == Object then v.Managed? && v.table == p.target && v.row < Count(x, p.target) else ScalarFits(p.ty, v)
  }

  /** What such a value reads as: a list that is set to null is empty. */
  function AsRead(p: Property, v: Value): Value {
    if p.ty.list && v.Null? then Values([]) else v
  }

  lemma {:induction false} PlainItemsFresh(s: Schema, p: Property, v: Value, rule: Rule, i: nat)
    requires ValidProperty(|s|, p) && v.Values? && i <= |v.elems| && forall j :: 0 <= j < |v.elems| ==> Plain(v.elems[j])
    ensures ItemNames(s, p, v, true, i) == {} && ItemsFresh(s, p, v, true, rule, i)
    decreases |v.elems| - i
  {
    if i < |v.elems| {
      PlainItemsFresh(s, p, v, rule, i + 1);
      assert ElemNames(s, p, v.elems[i], true) == {} && ElemFresh(s, p, v.elems[i], true, rule);
    }
  }

  lemma PlainFresh(s: Schema, p: Property, v: Value, rule: Rule)
    requires ValidProperty(|s|, p) && PlainValue(p, v)
    ensures PropNames(s, p, v, true) == {} && PropFresh(s, p, v, true, rule)
  {
    if p.ty.list {
      if v.Values? {
        PlainItemsFresh(s, p, v, rule, 0);
      }
    } else {
      assert ElemNames(s, p, v, true) == {} && ElemFresh(s, p, v, true, rule);
    }
  }

  lemma PlainAccepted(s: Schema, x: State, k: State, p: Property, v: Value, force: bool)
    requires ValidProperty(|s|, p) && PlainValue(p, v) && (p.ty.base == Object ==> Count(x, p.target) == Count(k, p.target))
    ensures ValueAccepted(s, x, k, p, v, force, true) <==> PlainFits(s, x, p, v)
  {
    if p.ty.list {
      if v.Values? {
        forall j | 0 <= j < |v.elems| ensures ItemAccepted(s, x, k, p, v.elems[j], force, true) <==> PlainItemFits(s, x, p, v.elems[j]) {
          PlainItemAccepted(s, x, k, p, v.elems[j], force);
        }
      }
    } else {
      PlainItemAccepted(s, x, k, p, v, force);
    }
  }

  lemma PlainItemAccepted(s: Schema, x: State, k: State, p: Property, v: Value, force: bool)
    requires ValidProperty(|s|, p) && Plain(v) && (p.ty.base == Object ==> Count(x, p.target) == Count(k, p.target))
    ensures ItemAccepted(s, x, k, p, v, force, true) <==> PlainItemFits(s, x, p, v)
  {
  }

  lemma NoNewRows(s: Schema, x: State, y: State, o: Own, t: nat)
    requires Frame(s, x, y, {}, o) && t < |s|
    ensures Count(y, t) == Count(x, t)
  {
    var next := NameAt(s, y, t, Count(x, t));
    assert Count(x, t) <= Count(y, t);
  }

  /** The cell that holds a value. */
  function Stored(v: Value): Cell {
    match v
    case Scalar(q) => CPrim(q)
    case Managed(_, r) => CLink(r)
    case _ => CNull
  }

  /** A value without unmanaged objects is set if and only if it fits, under every policy; the
      property then holds and reads the value. No row is added and no other cell changes,
      whether it is set or refused. */
  lemma SetPlain(s: Schema, x: State, t: nat, row: nat, c: nat, v: Value, pol: Policy, u: nat, a: Addr)
    requires Wf(s, x) && t < |s| && Writable(s, x, t, row, c) && PlainValue(s[t].props[c], v) && u < |s|
    ensures var r := SetPropertyValue(s, x, t, row, c, v, pol); var p := s[t].props[c];
      && (r.Ok? <==> PlainFits(s, x, p, v))
      && (r.Ok? ==> ReadProperty(s, r.st, t, row, c) == AsRead(p, v))
      && (r.Ok? && !p.ty.list ==> Get(r.st, Addr(t, row, c)) == Stored(v))
      && Wf(s, r.st) && Count(r.st, u) == Count(x, u)
      && (a != Addr(t, row, c) && a in x.cells ==> Get(r.st, a) == Get(x, a))
  {
    var p := s[t].props[c];
    var r := SetPropertyValue(s, x, t, row, c, v, pol);
    PlainFresh(s, p, v, RuleFor(pol));
    SetPropFrame(s, x, t, row, c, v, pol, false, true);
    NoNewRows(s, x, r.st, Own(t, row, c, c + 1), u);
    if p.ty.base == Object {
      NoNewRows(s, x, r.st, Own(t, row, c, c + 1), p.target);
    }
    SetSucceeds(s, x, t, row, c, v, pol);
    PlainAccepted(s, x, r.st, p, v, pol == ForceCreate);
    if r.Ok? {
      SetShows(s, x, t, row, c, v, pol);
      if !(p.ty.list && v.Null?) {
        ShownIsRead(s, x, r.st, p, Get(x, Addr(t, row, c)), Get(r.st, Addr(t, row, c)), v, true);
      }
    }
  }

  /** The writes that setting a scalar takes: one, except that `UpdateModified` issues none
      where the property holds the value already. A NaN counts as different from itself. */
  lemma ScalarWrites(s: Schema, x: State, t: nat, row: nat, c: nat, v: Value, pol: Policy)
    requires t < |s| && Writable(s, x, t, row, c) && !s[t].props[c].ty.list && s[t].props[c].ty.base != Object
    requires ScalarFits(s[t].props[c].ty, v)
    ensures var a := Addr(t, row, c); var held := pol == UpdateModified && Get(x, a) == Stored(v) && !IsNaN(Stored(v));
      SetPropertyValue(s, x, t, row, c, v, pol) == Ok(if held then x else Do(x, a, SetTo(Stored(v))), row)
  {
    var p := s[t].props[c];
    var a := Addr(t, row, c);
    assert SetPropertyValue(s, x, t, row, c, v, pol) == SetProp(s, x, t, row, c, v, pol, false, true);
    if !(p.ty.nullable && v.Null?) {
      assert UnboxItem(s, x, p, v, pol, LinkedRow(Get(x, a)), true) == Ok(x, Stored(v));
      assert SetProp(s, x, t, row, c, v, pol, false, true) == Update(s, x, a, p, v, pol, true);
    }
  }
}
