// When `create` makes a new row, what it then leaves alone, and what it insists on.
module CreateRules {
  import opened Options
  import opened PropertyTypes
  import opened Store
  import opened Engine
  import opened Framing
  import opened FrameProofs
  import opened Policies
  import opened Keeping

  /** Under a key that is taken `ForceCreate` raises without a write, and on success the
      object is a row that did not exist before. */
  lemma ForceCreateIsNew(s: Schema, x: State, t: nat, v: Value, cur: Option<nat>, top: bool)
    requires Wf(s, x) && t < |s| && v.Unmanaged?
    ensures var r := Create(s, x, t, v, ForceCreate, cur, top);
      && (s[t].pk.Some? && KeyOf(s, t, v).Good? && Find(s, x, t, KeyOf(s, t, v).val).Some? ==>
            r == Err(x, DuplicateKey(t, KeyOf(s, t, v).val)))
      && (r.Ok? ==> r.val == Count(x, t) && r.val < Count(r.st, t))
  {
    var l := Locate(s, x, t, v, ForceCreate, cur);
    LocateFrame(s, x, t, v, ForceCreate, cur);
    if l.Ok? {
      PopulateFrame(s, l.st, t, l.val, v, ForceCreate, top, 0);
    }
  }

  // ----- `ForceCreate` leaves every existing object alone

  /** `ForceCreate` never touches an existing object, keyed or not, also when it raises in
      the middle of a nested create. */
  lemma ForceCreateOnlyAdds(s: Schema, x: State, t: nat, v: Value, cur: Option<nat>, top: bool, a: Addr)
    requires Wf(s, x) && t < |s| && a in x.cells
    ensures var y := Create(s, x, t, v, ForceCreate, cur, top).st; a in y.cells && Get(y, a) == Get(x, a)
  {
    CreateKeeps(s, x, x, t, v, ForceCreate, cur, top);
  }

  // ----- what `ForceCreate` does, `UpdateAll` does

  /** Where `ForceCreate` succeeds, `UpdateAll` takes the very same steps. */
  lemma {:induction false} CreateForced(s: Schema, x: State, t: nat, v: Value, cur: Option<nat>, top: bool)
    requires t < |s| && Create(s, x, t, v, ForceCreate, cur, top).Ok?
    ensures Create(s, x, t, v, UpdateAll, cur, top) == Create(s, x, t, v, ForceCreate, cur, top)
    decreases top, v, 5, 0
  {
    var l := Locate(s, x, t, v, ForceCreate, cur);
    assert Locate(s, x, t, v, UpdateAll, cur) == l;
    PopulateForced(s, l.st, t, l.val, v, top, 0);
  }

  lemma {:induction false} PopulateForced(s: Schema, x: State, t: nat, slot: Slot, v: Value, top: bool, i: nat)
    requires t < |s| && i <= |s[t].props| && Populate(s, x, t, slot, v, ForceCreate, top, i).Ok?
    ensures Populate(s, x, t, slot, v, UpdateAll, top, i) == Populate(s, x, t, slot, v, ForceCreate, top, i)
    decreases top, v, 4, |s[t].props| - i
  {
    if i < |s[t].props| {
      var f := Supplied(s, t, v, i, top);
      if s[t].pk != Some(i) && f.Given? && !(FieldOf(v, i).Absent? && !slot.created) {
        SetPropForced(s, x, t, slot.row, i, f.value, FieldOf(v, i).Absent?, SubTop(v, i, top));
      }
      PopulateForced(s, PopulateOne(s, x, t, slot, v, ForceCreate, top, i).st, t, slot, v, top, i + 1);
    }
  }

  lemma {:induction false} SetPropForced(s: Schema, x: State, t: nat, row: nat, c: nat, v: Value, isDefault: bool, top: bool)
    requires t < |s| && c < |s[t].props| && SetProp(s, x, t, row, c, v, ForceCreate, isDefault, top).Ok?
    ensures SetProp(s, x, t, row, c, v, UpdateAll, isDefault, top) == SetProp(s, x, t, row, c, v, ForceCreate, isDefault, top)
    decreases top, v, 9, 0
  {
    var p := s[t].props[c];
    var a := Addr(t, row, c);
    if !(p.ty.nullable && v.Null?) {
      if !p.ty.list {
        UnboxItemForced(s, x, p, v, LinkedRow(Get(x, a)), top);
      } else if v.Values? {
        RefillForced(s, Do(x, a, ClearItems), a, p, v, 0, top);
      }
    }
  }

  lemma {:induction false} UnboxItemForced(s: Schema, x: State, p: Property, v: Value, cur: Option<nat>, top: bool)
    requires ValidProperty(|s|, p) && UnboxItem(s, x, p, v, ForceCreate, cur, top).Ok?
    ensures UnboxItem(s, x, p, v, UpdateAll, cur, top) == UnboxItem(s, x, p, v, ForceCreate, cur, top)
    decreases top, v, 6, 0
  {
    if p.ty.base == Object && !v.Managed? {
      CreateForced(s, x, p.target, v, cur, top);
    }
  }

  lemma {:induction false} RefillForced(s: Schema, x: State, a: Addr, p: Property, v: Value, i: nat, top: bool)
    requires ValidProperty(|s|, p) && v.Values? && i <= |v.elems| && Refill(s, x, a, p, v, ForceCreate, i, top).Ok?
    ensures Refill(s, x, a, p, v, UpdateAll, i, top) == Refill(s, x, a, p, v, ForceCreate, i, top)
    decreases top, v, 7, |v.elems| - i
  {
    if i < |v.elems| {
      var u := UnboxItem(s, x, p, v.elems[i], ForceCreate, Some(0), top);
      UnboxItemForced(s, x, p, v.elems[i], Some(0), top);
      RefillForced(s, Do(u.st, a, AddItem(u.val)), a, p, v, i + 1, top);
    }
  }

  // ----- what new objects need

  /** A property that a new row cannot do without. */
  predicate Required(s: Schema, t: nat, c: nat)
    requires t < |s| && c < |s[t].props|
  {
    s[t].pk != Some(c) && !s[t].props[c].ty.nullable && !s[t].props[c].ty.list
  }

  lemma {:induction false} PopulateNeeds(s: Schema, x: State, t: nat, slot: Slot, v: Value, pol: Policy, top: bool, i: nat, c: nat)
    requires t < |s| && i <= c < |s[t].props| && slot.created && v.Unmanaged? && !v.isArray
    requires Populate(s, x, t, slot, v, pol, top, i).Ok? && Required(s, t, c)
    ensures Supplied(s, t, v, c, top).Given? && !Supplied(s, t, v, c, top).value.Null?
    decreases c - i
  {
    if i < c {
      PopulateNeeds(s, PopulateOne(s, x, t, slot, v, pol, top, i).st, t, slot, v, pol, top, i + 1, c);
    }
  }

  /** An object that is added from a dictionary has a value or a default, other than null,
      for every required property; otherwise `create` raises. */
  lemma NewObjectsAreComplete(s: Schema, x: State, t: nat, v: Value, pol: Policy, cur: Option<nat>, top: bool, c: nat)
    requires t < |s| && c < |s[t].props| && v.Unmanaged? && !v.isArray && Required(s, t, c)
    requires s[t].pk.Some? ==> KeyOf(s, t, v).Good? && Find(s, x, t, KeyOf(s, t, v).val).None?
    requires s[t].pk.None? ==> pol != UpdateModified || cur.None?
    requires Create(s, x, t, v, pol, cur, top).Ok?
    ensures Supplied(s, t, v, c, top).Given? && !Supplied(s, t, v, c, top).value.Null?
  {
    var l := Locate(s, x, t, v, pol, cur);
    PopulateNeeds(s, l.st, t, l.val, v, pol, top, 0, c);
  }
}
