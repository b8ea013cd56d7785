// The main results about `create`: what it leaves behind, and what doing it again does.
module Idempotence {
  import opened Options
  import opened PropertyTypes
  import opened Store
  import opened Engine
  import opened Framing
  import opened FrameProofs
  import opened CreateRules
  import opened Policies
  import opened Reading
  import opened ReadBack

  // ----- values that compare equal to what they store

  /** No list is supplied as null and no scalar is NaN. */
  predicate Quiet(s: Schema, t: nat, v: Value)
    requires t < |s|
    decreases v, 2
  {
    forall c :: 0 <= c < |s[t].props| && FieldOf(v, c).Given? ==> QuietValue(s, s[t].props[c], FieldOf(v, c).value)
  }

  predicate QuietValue(s: Schema, p: Property, v: Value)
    requires ValidProperty(|s|, p)
    decreases v, 4
  {
    if !p.ty.list then QuietItem(s, p, v)
    else !v.Null? && (v.Values? ==> forall j :: 0 <= j < |v.elems| ==> QuietItem(s, p, v.elems[j]))
  }

  predicate QuietItem(s: Schema, p: Property, v: Value)
    requires ValidProperty(|s|, p)
    decreases v, 3
  {
    if p.ty.base == Object then v.Unmanaged? ==> Quiet(s, p.target, v)
    else UnboxScalar(p.ty, v).Good? ==> !IsNaN(UnboxScalar(p.ty, v).val)
  }

  // ----- updating with what is already there

  /** Updating an object with a value that its row shows writes nothing; an object without a
      key is found by its current row. */
  lemma {:induction false} CreateSettled(s: Schema, b: State, y: State, t: nat, row: nat, v: Value, cur: Option<nat>, top: bool)
    requires t < |s| && ShowsAt(s, b, y, t, row, v, top) && Quiet(s, t, v) && (s[t].pk.None? ==> cur == Some(row))
    ensures Create(s, y, t, v, UpdateModified, cur, top) == Ok(y, row)
    decreases top, v, 5, 0
  {
    var slot := Slot(row, false);
    var created := s[t].pk.None? || Find(s, b, t, KeyOf(s, t, v).val).None?;
    assert Locate(s, y, t, v, UpdateModified, cur) == Ok(y, slot);
    forall c | 0 <= c < |s[t].props|
      ensures PopulateOne(s, y, t, slot, v, UpdateModified, top, c).Ok? && PopulateOne(s, y, t, slot, v, UpdateModified, top, c).st == y
    {
      assert ShowsField(s, b, y, t, row, created, v, top, c);
      PopulateOneSettled(s, b, y, t, slot, created, v, top, c);
    }
    PopulateSettled(s, y, t, slot, v, top, 0);
  }

  lemma {:induction false} PopulateSettled(s: Schema, y: State, t: nat, slot: Slot, v: Value, top: bool, i: nat)
    requires t < |s| && i <= |s[t].props|
    requires forall c :: i <= c < |s[t].props| ==>
      PopulateOne(s, y, t, slot, v, UpdateModified, top, c).Ok? && PopulateOne(s, y, t, slot, v, UpdateModified, top, c).st == y
    ensures Populate(s, y, t, slot, v, UpdateModified, top, i) == Ok(y, slot.row)
    decreases |s[t].props| - i
  {
    if i < |s[t].props| {
      PopulateSettled(s, y, t, slot, v, top, i + 1);
    }
  }

  lemma {:induction false} PopulateOneSettled(s: Schema, b: State, y: State, t: nat, slot: Slot, created: bool, v: Value, top: bool, c: nat)
    requires t < |s| && c < |s[t].props| && !slot.created && Quiet(s, t, v)
    requires ShowsField(s, b, y, t, slot.row, created, v, top, c)
    ensures PopulateOne(s, y, t, slot, v, UpdateModified, top, c).Ok? && PopulateOne(s, y, t, slot, v, UpdateModified, top, c).st == y
    decreases top, v, 4, 0
  {
    var f := FieldOf(v, c);
    if s[t].pk != Some(c) && f.Given? {
      assert ValidProperty(|s|, s[t].props[c]);
      SetPropSettled(s, b, y, t, slot.row, c, Prior(s, b, t, slot.row, created, c), f.value, SubTop(v, c, top));
    }
  }

  lemma {:induction false} SetPropSettled(s: Schema, b: State, y: State, t: nat, row: nat, c: nat, prior: Cell, v: Value, top: bool)
    requires t < |s| && c < |s[t].props| && QuietValue(s, s[t].props[c], v)
    requires ShowsValue(s, b, y, s[t].props[c], prior, Get(y, Addr(t, row, c)), v, top)
    ensures SetProp(s, y, t, row, c, v, UpdateModified, false, top) == Ok(y, row)
    ensures v.Null? ==> s[t].props[c].ty.nullable
    decreases top, v, 9, 0
  {
    var p := s[t].props[c];
    var a := Addr(t, row, c);
    if !(p.ty.nullable && v.Null?) {
      if !p.ty.list {
        ItemSettled(s, b, y, p, Get(y, a), v, LinkedRow(Get(y, a)), top);
      } else if v.Values? {
        ListSettled(s, b, y, a, p, v, 0, top);
      }
    }
  }

  lemma {:induction false} ItemSettled(s: Schema, b: State, y: State, p: Property, cell: Cell, v: Value, cur: Option<nat>, top: bool)
    requires ValidProperty(|s|, p) && QuietItem(s, p, v) && ShowsItem(s, b, y, p, cell, v, top) && cur == LinkedRow(cell)
    ensures UnboxItem(s, y, p, v, UpdateModified, cur, top) == Ok(y, cell) && !Differs(cell, cell)
    decreases top, v, 6, 0
  {
    if p.ty.base == Object && !v.Managed? {
      CreateSettled(s, b, y, p.target, cell.row, v, cur, top);
    }
  }

  lemma {:induction false} ListSettled(s: Schema, b: State, y: State, a: Addr, p: Property, v: Value, i: nat, top: bool)
    requires ValidProperty(|s|, p) && p.ty.list && v.Values? && i <= |v.elems| && QuietValue(s, p, v)
    requires |Items(y, a)| == |v.elems|
    requires forall j :: 0 <= j < |v.elems| ==> ShowsItem(s, b, y, p, Items(y, a)[j], v.elems[j], top)
    ensures AssignInPlace(s, y, a, p, v, i, |v.elems|, top) == Ok(y, a.r)
    decreases top, v, 7, |v.elems| - i
  {
    if i < |v.elems| {
      ItemSettled(s, b, y, p, Items(y, a)[i], v.elems[i], LinkedRow(Items(y, a)[i]), top);
      assert Place(s, y, a, p, v.elems[i], i, |v.elems|, top) == Ok(y, a.r);
      ListSettled(s, b, y, a, p, v, i + 1, top);
    }
  }

  // ----- main results

  lemma ContentSteady(s: Schema, x: State, y: State, names: set<Name>)
    requires SameContent(x, y)
    ensures Steady(s, x, y, names)
  {
    assert forall a :: Get(x, a) == Get(y, a);
    assert forall t, r :: 0 <= t < |s| ==> KeyAt(s, x, t, r) == KeyAt(s, y, t, r);
    forall t, key | 0 <= t < |s| && s[t].pk.Some? && Name(t, key) in names
      ensures Find(s, x, t, key) == Find(s, y, t, key)
    {
      if Find(s, x, t, key).Some? {
        FindStable(s, x, y, t, key);
      }
    }
    assert SteadyRows(s, x, y, names);
    forall t, r, c | 0 <= t < |s| && s[t].pk.Some? && 0 <= r < Count(x, t) && 0 <= c < |s[t].props| && NameAt(s, x, t, r) in names
      ensures Get(x, Addr(t, r, c)) == Get(y, Addr(t, r, c)) && NameAt(s, y, t, r) == NameAt(s, x, t, r)
    {
      assert KeyAt(s, x, t, r) == KeyAt(s, y, t, r);
    }
    assert SteadyCells(s, x, y, names);
  }

  lemma ContentBetween(s: Schema, b: State, x: State, y: State, names: set<Name>)
    requires SameContent(x, y)
    ensures Between(s, b, b, x, y, names)
  {
    ContentSteady(s, x, y, names);
    SteadyRefl(s, b, names);
    assert forall a :: Get(x, a) == Get(y, a);
  }

  lemma FieldContent(s: Schema, b: State, x: State, y: State, t: nat, row: nat, created: bool, v: Value, top: bool, c: nat)
    requires t < |s| && c < |s[t].props| && ShowsField(s, b, x, t, row, created, v, top, c) && SameContent(x, y)
    ensures ShowsField(s, b, y, t, row, created, v, top, c)
  {
    var names := NamesAt(s, t, v, top, c);
    ContentBetween(s, b, x, y, names);
    FieldStable(s, b, b, x, y, t, row, created, v, top, c, names);
  }

  /** Setting all properties comes to the same under all policies, where it succeeds. */
  lemma PopulateAgrees(s: Schema, x: State, t: nat, slot: Slot, v: Value, pol: Policy, top: bool)
    requires Wf(s, x) && t < |s| && slot.row < Count(x, t) && Populate(s, x, t, slot, v, pol, top, 0).Ok?
    requires pol == UpdateModified ==>
      FieldsFresh(s, t, v, top, NoAncestors, 0) && NameAt(s, x, t, slot.row) !in FieldNames(s, t, v, top, 0)
    ensures var r := Populate(s, x, t, slot, v, pol, top, 0); var q := Populate(s, x, t, slot, v, UpdateAll, top, 0);
      q.Outcome() == r.Outcome() && SameContent(q.st, r.st)
  {
    if pol == ForceCreate {
      PopulateForced(s, x, t, slot, v, top, 0);
    } else if pol == UpdateModified {
      assert Agree(s, x, x, {});
      assert Apart(s, x, {}, {NameAt(s, x, t, slot.row)} + FieldNames(s, t, v, top, 0));
      PopulateSame(s, x, x, t, slot, v, top, 0, {});
      AgreeContent(s, Populate(s, x, t, slot, v, UpdateModified, top, 0).st, Populate(s, x, t, slot, v, UpdateAll, top, 0).st);
    }
  }

  /** No name of a keyed type occurs twice; under `UpdateModified`, nested objects have keys. */
  function RuleFor(pol: Policy): Rule {
    if pol == UpdateModified then NoRepeats else NoRepeatedKeys
  }

  lemma PopulateReads(s: Schema, b: State, x: State, t: nat, slot: Slot, v: Value, pol: Policy, top: bool, c: nat)
    requires t < |s| && c < |s[t].props| && Untouched(s, b, x, t, slot, v, top, 0) && FieldsFresh(s, t, v, top, RuleFor(pol), 0)
    requires pol == UpdateModified ==> NameAt(s, x, t, slot.row) !in FieldNames(s, t, v, top, 0)
    requires Populate(s, x, t, slot, v, pol, top, 0).Ok?
    ensures ShowsField(s, b, Populate(s, x, t, slot, v, pol, top, 0).st, t, slot.row, slot.created, v, top, c)
  {
    var q := Populate(s, x, t, slot, v, UpdateAll, top, 0);
    if pol == UpdateModified {
      FieldsFreshLess(s, t, v, top, NoAncestors, 0);
      FieldsFreshLess(s, t, v, top, NoRepeatedKeys, 0);
    }
    PopulateAgrees(s, x, t, slot, v, pol, top);
    PopulateFrame(s, x, t, slot, v, UpdateAll, top, 0);
    PopulateShows(s, b, x, q.st, t, slot, v, top, 0, c);
    FieldContent(s, b, q.st, Populate(s, x, t, slot, v, pol, top, 0).st, t, slot.row, slot.created, v, top, c);
  }

  lemma CreateReads(s: Schema, x: State, t: nat, v: Value, pol: Policy, cur: Option<nat>, c: nat)
    requires Wf(s, x) && t < |s| && c < |s[t].props| && Fresh(s, t, v, true, RuleFor(pol)) && Create(s, x, t, v, pol, cur, true).Ok?
    ensures var r := Create(s, x, t, v, pol, cur, true);
      ShowsField(s, x, r.st, t, r.val, Count(x, t) <= r.val, v, true, c)
  {
    var l := Locate(s, x, t, v, pol, cur);
    if pol == UpdateModified {
      FreshLess(s, t, v, true, NoRepeatedKeys);
    }
    LocateShows(s, x, t, v, pol, cur);
    LocateFrame(s, x, t, v, pol, cur);
    LocateUntouched(s, x, t, v, pol, cur, true);
    PopulateFrame(s, l.st, t, l.val, v, pol, true, 0);
    PopulateReads(s, x, l.st, t, l.val, v, pol, true, c);
  }

  /** If no name of a keyed type occurs twice in the value, then after a successful `create`,
      under every policy, every supplied value shows in the returned row, with all nested
      objects; so does every default of a new row, and whatever was not supplied to an
      existing row is unchanged. A key finds the row. */
  lemma CreateReadsBack(s: Schema, x: State, t: nat, v: Value, pol: Policy, cur: Option<nat>)
    requires Wf(s, x) && t < |s| && Fresh(s, t, v, true, RuleFor(pol)) && Create(s, x, t, v, pol, cur, true).Ok?
    ensures var r := Create(s, x, t, v, pol, cur, true); var created := Count(x, t) <= r.val;
      && (forall c :: 0 <= c < |s[t].props| ==> ShowsField(s, x, r.st, t, r.val, created, v, true, c))
      && (s[t].pk.Some? ==> ShowsObject(s, x, r.st, t, v, true) && Find(s, r.st, t, KeyOf(s, t, v).val) == Some(r.val))
  {
    var r := Create(s, x, t, v, pol, cur, true);
    var created := Count(x, t) <= r.val;
    forall c | 0 <= c < |s[t].props| ensures ShowsField(s, x, r.st, t, r.val, created, v, true, c) {
      CreateReads(s, x, t, v, pol, cur, c);
    }
    if s[t].pk.Some? {
      var l := Locate(s, x, t, v, pol, cur);
      LocateShows(s, x, t, v, pol, cur);
      LocateFrame(s, x, t, v, pol, cur);
      PopulateFrame(s, l.st, t, l.val, v, pol, true, 0);
      CreateFinds(s, x, t, v, pol, cur, true);
    }
  }

  // ----- reading properties

  function BoxItem(p: Property, x: Cell): Value {
    match x
    case CNull => Null
    case CPrim(q) => Scalar(q)
    case CLink(r) => Managed(p.target, r)
    case CList(_) => SameList
  }

  /** `get_property_value_impl`, with lists read out in full. */
  function ReadProperty(s: Schema, st: State, t: nat, row: nat, c: nat): Value
    requires t < |s| && c < |s[t].props|
  {
    BoxCell(s[t].props[c], Get(st, Addr(t, row, c)))
  }

  function BoxCell(p: Property, x: Cell): Value {
    if p.ty.list then Values(seq(|ItemsOf(x)|, i requires 0 <= i < |ItemsOf(x)| => BoxItem(p, ItemsOf(x)[i]))) else BoxItem(p, x)
  }

  predicate Plain(v: Value) {
    v.Null? || v.Scalar? || v.Managed?
  }

  /** Values that are stored as they are: scalars, null, managed objects, and lists of these. */
  predicate StoredAsIs(p: Property, v: Value) {
    if p.ty.list then v.Values? && forall j :: 0 <= j < |v.elems| ==> Plain(v.elems[j]) else Plain(v)
  }

  /** Reading a property of a created or updated object gives back the very value supplied. */
  lemma PropertyRoundTrip(s: Schema, x: State, t: nat, v: Value, pol: Policy, cur: Option<nat>, c: nat)
    requires Wf(s, x) && t < |s| && Fresh(s, t, v, true, RuleFor(pol)) && Create(s, x, t, v, pol, cur, true).Ok?
    requires c < |s[t].props| && s[t].pk != Some(c) && FieldOf(v, c).Given? && StoredAsIs(s[t].props[c], FieldOf(v, c).value)
    ensures var r := Create(s, x, t, v, pol, cur, true);
      ReadProperty(s, r.st, t, r.val, c) == FieldOf(v, c).value
  {
    var r := Create(s, x, t, v, pol, cur, true);
    CreateReads(s, x, t, v, pol, cur, c);
    ShownIsRead(s, x, r.st, s[t].props[c], Prior(s, x, t, r.val, Count(x, t) <= r.val, c), Get(r.st, Addr(t, r.val, c)),
                FieldOf(v, c).value, true);
  }

  lemma ShownIsRead(s: Schema, x: State, y: State, p: Property, prior: Cell, cell: Cell, v: Value, top: bool)
    requires ValidProperty(|s|, p) && StoredAsIs(p, v) && ShowsValue(s, x, y, p, prior, cell, v, top)
    ensures BoxCell(p, cell) == v
  {
    if p.ty.list {
      forall j | 0 <= j < |v.elems| ensures BoxItem(p, cell.items[j]) == v.elems[j] {
        assert ShowsItem(s, x, y, p, cell.items[j], v.elems[j], top);
        ShownItemIsRead(s, x, y, p, cell.items[j], v.elems[j], top);
      }
      assert BoxCell(p, cell).elems == v.elems;
    } else if !(p.ty.nullable && v.Null?) {
      ShownItemIsRead(s, x, y, p, cell, v, top);
    }
  }

  lemma ShownItemIsRead(s: Schema, x: State, y: State, p: Property, cell: Cell, v: Value, top: bool)
    requires ValidProperty(|s|, p) && Plain(v) && ShowsItem(s, x, y, p, cell, v, top)
    ensures BoxItem(p, cell) == v
  {
  }

  /** A property that is not supplied to an existing object reads as before. */
  lemma UnsuppliedUnchanged(s: Schema, x: State, t: nat, v: Value, pol: Policy, cur: Option<nat>, c: nat)
    requires Wf(s, x) && t < |s| && Fresh(s, t, v, true, RuleFor(pol)) && Create(s, x, t, v, pol, cur, true).Ok?
    requires c < |s[t].props| && FieldOf(v, c).Absent? && Create(s, x, t, v, pol, cur, true).val < Count(x, t)
    ensures var r := Create(s, x, t, v, pol, cur, true);
      ReadProperty(s, r.st, t, r.val, c) == ReadProperty(s, x, t, r.val, c)
  {
    var r := Create(s, x, t, v, pol, cur, true);
    CreateReads(s, x, t, v, pol, cur, c);
    CreateFrame(s, x, t, v, pol, cur, true);
    if s[t].pk == Some(c) {
      assert KeyAt(s, r.st, t, r.val) == KeyAt(s, x, t, r.val);
    }
  }

  /** Under every policy, the key of the object reads as the one supplied; failing that, as
      the default; failing that, as null. */
  lemma KeyRoundTrip(s: Schema, x: State, t: nat, v: Value, pol: Policy, cur: Option<nat>, top: bool)
    requires Wf(s, x) && t < |s| && s[t].pk.Some? && Create(s, x, t, v, pol, cur, top).Ok?
    ensures var r := Create(s, x, t, v, pol, cur, top);
      var c := s[t].pk.value;
      var read := ReadProperty(s, r.st, t, r.val, c);
      && (FieldOf(v, c).Given? ==> read == FieldOf(v, c).value)
      && (FieldOf(v, c).Absent? && s[t].props[c].dflt.Given? ==> read == s[t].props[c].dflt.value)
      && (FieldOf(v, c).Absent? && s[t].props[c].dflt.Absent? ==> read == Null && s[t].props[c].ty.nullable)
  {
    CreateFrame(s, x, t, v, pol, cur, top);
  }

  /** What a property reads as that was never set: empty, null, zero or false. */
  function Unset(ty: PropertyType): Value {
    if ty.list then Values([])
    else if ty.nullable then Null
    else if ty.base == Int then Scalar(IntV(0))
    else if ty.base == Bool then Scalar(BoolV(false))
    else if ty.base == String then Scalar(StringV(""))
    else if ty.base == Data then Scalar(DataV([]))
    else if ty.base == Date then Scalar(DateV(0, 0))
    else if ty.base == Float then Scalar(FloatV(Num(0.0)))
    else if ty.base == Double then Scalar(DoubleV(Num(0.0)))
    else Null
  }

  lemma UnsetIsInitial(p: Property)
    ensures BoxCell(p, InitialCell(p.ty)) == Unset(p.ty)
  {
  }

  /** A property that is not supplied to a new object reads as its default; failing that, as
      never set. */
  lemma DefaultRoundTrip(s: Schema, x: State, t: nat, v: Value, pol: Policy, cur: Option<nat>, c: nat)
    requires Wf(s, x) && t < |s| && Fresh(s, t, v, true, RuleFor(pol)) && Create(s, x, t, v, pol, cur, true).Ok?
    requires c < |s[t].props| && s[t].pk != Some(c) && FieldOf(v, c).Absent? && Count(x, t) <= Create(s, x, t, v, pol, cur, true).val
    requires s[t].props[c].dflt.Given? ==> StoredAsIs(s[t].props[c], s[t].props[c].dflt.value)
    ensures var r := Create(s, x, t, v, pol, cur, true);
      ReadProperty(s, r.st, t, r.val, c) ==
        if s[t].props[c].dflt.Given? then s[t].props[c].dflt.value else Unset(s[t].props[c].ty)
  {
    var r := Create(s, x, t, v, pol, cur, true);
    CreateReads(s, x, t, v, pol, cur, c);
    UnsetIsInitial(s[t].props[c]);
    if s[t].props[c].dflt.Given? {
      ShownIsRead(s, x, r.st, s[t].props[c], InitialCell(s[t].props[c].ty), Get(r.st, Addr(t, r.val, c)), s[t].props[c].dflt.value, false);
    }
  }

  /** Under every policy, rows whose names are not in the value keep all their contents,
      whether `create` returns or raises. */
  lemma OnlyNamedObjectsChange(s: Schema, x: State, t: nat, v: Value, pol: Policy, cur: Option<nat>, a: Addr)
    requires Wf(s, x) && t < |s| && a in x.cells && NameAt(s, x, a.t, a.r) !in Names(s, t, v, true)
    ensures var y := Create(s, x, t, v, pol, cur, true).st; a in y.cells && Get(y, a) == Get(x, a)
  {
    CreateFrame(s, x, t, v, pol, cur, true);
    Unchanged(s, x, Create(s, x, t, v, pol, cur, true).st, Names(s, t, v, true), NOTHING, a);
  }

  /** After a successful `create` under any policy, repeating it with `UpdateModified` issues
      no write at all. An object without a key is found again by its row. */
  lemma CreateAgain(s: Schema, x: State, t: nat, v: Value, pol: Policy, cur: Option<nat>, again: Option<nat>)
    requires Wf(s, x) && t < |s| && Fresh(s, t, v, true, RuleFor(pol)) && Quiet(s, t, v) && Create(s, x, t, v, pol, cur, true).Ok?
    requires s[t].pk.Some? || again == Some(Create(s, x, t, v, pol, cur, true).val)
    ensures var r := Create(s, x, t, v, pol, cur, true); Create(s, r.st, t, v, UpdateModified, again, true) == r
  {
    var r := Create(s, x, t, v, pol, cur, true);
    CreateReadsBack(s, x, t, v, pol, cur);
    CreateFrame(s, x, t, v, pol, cur, true);
    var slot, created := Slot(r.val, false), Count(x, t) <= r.val;
    assert Locate(s, r.st, t, v, UpdateModified, again) == Ok(r.st, slot);
    forall c | 0 <= c < |s[t].props|
      ensures PopulateOne(s, r.st, t, slot, v, UpdateModified, true, c).Ok? && PopulateOne(s, r.st, t, slot, v, UpdateModified, true, c).st == r.st
    {
      assert ShowsField(s, x, r.st, t, r.val, created, v, true, c);
      PopulateOneSettled(s, x, r.st, t, slot, created, v, true, c);
    }
    PopulateSettled(s, r.st, t, slot, v, true, 0);
  }

  /** If all objects have keys, repeating a successful `create` with `UpdateAll` leaves the
      contents as they are, and with `UpdateModified` issues no write at all. */
  lemma CreateTwice(s: Schema, x: State, t: nat, v: Value, pol: Policy, cur: Option<nat>, again: Option<nat>)
    requires Wf(s, x) && t < |s| && s[t].pk.Some? && Fresh(s, t, v, true, NoRepeats) && Quiet(s, t, v)
    requires Create(s, x, t, v, pol, cur, true).Ok?
    ensures var r := Create(s, x, t, v, pol, cur, true);
      && Create(s, r.st, t, v, UpdateModified, again, true) == r
      && var q := Create(s, r.st, t, v, UpdateAll, again, true);
         q.Outcome() == Good(r.val) && SameContent(q.st, r.st)
  {
    FreshLess(s, t, v, true, RuleFor(pol));
    CreateAgain(s, x, t, v, pol, cur, again);
    CreateFrame(s, x, t, v, pol, cur, true);
    FreshLess(s, t, v, true, NoAncestors);
    PoliciesAgree(s, Create(s, x, t, v, pol, cur, true).st, t, v, again, again);
  }

  // ----- a tree without repeated names obeys the other rules

  lemma {:induction false} FreshLess(s: Schema, t: nat, v: Value, top: bool, rule: Rule)
    requires t < |s| && Fresh(s, t, v, top, NoRepeats)
    ensures Fresh(s, t, v, top, rule)
    decreases top, v, 2, 0
  {
    if v.Unmanaged? && KeyOf(s, t, v).Good? {
      FieldsFreshLess(s, t, v, top, rule, 0);
    }
  }

  lemma {:induction false} FieldsFreshLess(s: Schema, t: nat, v: Value, top: bool, rule: Rule, i: nat)
    requires t < |s| && i <= |s[t].props| && FieldsFresh(s, t, v, top, NoRepeats, i)
    ensures FieldsFresh(s, t, v, top, rule, i)
    decreases top, v, 1, |s[t].props| - i
  {
    if i < |s[t].props| {
      var f := Supplied(s, t, v, i, top);
      if s[t].pk != Some(i) && f.Given? {
        PropFreshLess(s, s[t].props[i], f.value, SubTop(v, i, top), rule);
      }
      FieldsFreshLess(s, t, v, top, rule, i + 1);
    }
  }

  lemma {:induction false} PropFreshLess(s: Schema, p: Property, v: Value, top: bool, rule: Rule)
    requires ValidProperty(|s|, p) && PropFresh(s, p, v, top, NoRepeats)
    ensures PropFresh(s, p, v, top, rule)
    decreases top, v, 5, 0
  {
    if !p.ty.list {
      ElemFreshLess(s, p, v, top, rule);
    } else if v.Values? {
      ItemsFreshLess(s, p, v, top, rule, 0);
    }
  }

  lemma {:induction false} ItemsFreshLess(s: Schema, p: Property, v: Value, top: bool, rule: Rule, i: nat)
    requires ValidProperty(|s|, p) && v.Values? && i <= |v.elems| && ItemsFresh(s, p, v, top, NoRepeats, i)
    ensures ItemsFresh(s, p, v, top, rule, i)
    decreases top, v, 4, |v.elems| - i
  {
    if i < |v.elems| {
      ElemFreshLess(s, p, v.elems[i], top, rule);
      ItemsFreshLess(s, p, v, top, rule, i + 1);
    }
  }

  lemma {:induction false} ElemFreshLess(s: Schema, p: Property, v: Value, top: bool, rule: Rule)
    requires ValidProperty(|s|, p) && ElemFresh(s, p, v, top, NoRepeats)
    ensures ElemFresh(s, p, v, top, rule)
    decreases top, v, 3, 0
  {
    if p.ty.base == Object {
      FreshLess(s, p.target, v, top, rule);
    }
  }
}
