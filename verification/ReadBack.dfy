// A successful `create` with `UpdateAll` shows the value it was given, through all nested
// links and lists, whether the types have keys or not.
module ReadBack {
  import opened Options
  import opened PropertyTypes
  import opened Store
  import opened Engine
  import opened Framing
  import opened FrameProofs
  import opened Policies
  import opened Keeping
  import opened Reading

  // ----- the row that `create` finds or adds

  lemma LocateUntouched(s: Schema, x: State, t: nat, v: Value, pol: Policy, cur: Option<nat>, top: bool)
    requires Wf(s, x) && t < |s| && Locate(s, x, t, v, pol, cur).Ok? && v.Unmanaged? && Fresh(s, t, v, top, NoRepeatedKeys)
    ensures var l := Locate(s, x, t, v, pol, cur); Untouched(s, x, l.st, t, l.val, v, top, 0)
  {
    var l := Locate(s, x, t, v, pol, cur);
    LocateShows(s, x, t, v, pol, cur);
    LocateFrame(s, x, t, v, pol, cur);
    FrameSteady(s, x, l.st, {Name(t, KeyOf(s, t, v).val)}, NOTHING, FieldNames(s, t, v, top, 0));
  }

  // ----- create

  lemma {:induction false} CreateShows(s: Schema, x: State, t: nat, v: Value, cur: Option<nat>, top: bool)
    requires Wf(s, x) && t < |s| && Fresh(s, t, v, top, NoRepeatedKeys) && Create(s, x, t, v, UpdateAll, cur, top).Ok?
    ensures var r := Create(s, x, t, v, UpdateAll, cur, top); ShowsAt(s, x, r.st, t, r.val, v, top)
    decreases top, v, 5, 0
  {
    var l := Locate(s, x, t, v, UpdateAll, cur);
    var r := Create(s, x, t, v, UpdateAll, cur, top);
    LocateUntouched(s, x, t, v, UpdateAll, cur, top);
    LocateShows(s, x, t, v, UpdateAll, cur);
    LocateFrame(s, x, t, v, UpdateAll, cur);
    PopulateFrame(s, l.st, t, l.val, v, UpdateAll, top, 0);
    forall c | 0 <= c < |s[t].props| ensures ShowsField(s, x, r.st, t, l.val.row, l.val.created, v, top, c) {
      PopulateShows(s, x, l.st, r.st, t, l.val, v, top, 0, c);
    }
    if s[t].pk.Some? {
      FindStable(s, l.st, r.st, t, KeyOf(s, t, v).val);
    }
  }

  ghost function UntouchedStates(s: Schema, b: State, t: nat, slot: Slot, v: Value, top: bool, i: nat): iset<State>
    requires t < |s| && i <= |s[t].props|
  {
    iset x: State |
      && Wf(s, x) && slot.row < Count(x, t)
      && Foreign(s, x, t, slot.row, FieldNames(s, t, v, top, i))
      && Steady(s, b, x, FieldNames(s, t, v, top, i))
      && (forall c :: i <= c < |s[t].props| && s[t].pk != Some(c) ==>
            Get(x, Addr(t, slot.row, c)) == Prior(s, b, t, slot.row, slot.created, c))
  }

  /** The columns from `i` on still hold what they held in `b`, and nothing that is nested
      in them was touched. */
  ghost predicate Untouched(s: Schema, b: State, x: State, t: nat, slot: Slot, v: Value, top: bool, i: nat)
    requires t < |s| && i <= |s[t].props|
  {
    x in UntouchedStates(s, b, t, slot, v, top, i)
  }

  ghost function ShowingStates(s: Schema, b: State, t: nat, slot: Slot, v: Value, top: bool, c: nat): iset<State>
    requires t < |s| && c < |s[t].props|
  {
    iset y: State | ShowsField(s, b, y, t, slot.row, slot.created, v, top, c)
  }

  /** Setting the properties from `i` on makes column `c` show the value. */
  lemma {:induction false} PopulateShows(s: Schema, b: State, x: State, y: State, t: nat, slot: Slot, v: Value, top: bool, i: nat, c: nat)
    requires t < |s| && i <= c < |s[t].props|
    requires Untouched(s, b, x, t, slot, v, top, i) && FieldsFresh(s, t, v, top, NoRepeatedKeys, i)
    requires Populate(s, x, t, slot, v, UpdateAll, top, i) == Ok(y, slot.row)
    ensures y in ShowingStates(s, b, t, slot, v, top, c)
    decreases top, v, 4, |s[t].props| - i, 0
  {
    if i == c {
      FirstShows(s, b, x, y, t, slot, v, top, i);
    } else {
      LaterShows(s, b, x, y, t, slot, v, top, i, c);
    }
  }

  lemma {:induction false} LaterShows(s: Schema, b: State, x: State, y: State, t: nat, slot: Slot, v: Value, top: bool, i: nat, c: nat)
    requires t < |s| && i < c < |s[t].props|
    requires Untouched(s, b, x, t, slot, v, top, i) && FieldsFresh(s, t, v, top, NoRepeatedKeys, i)
    requires Populate(s, x, t, slot, v, UpdateAll, top, i) == Ok(y, slot.row)
    ensures y in ShowingStates(s, b, t, slot, v, top, c)
    decreases top, v, 4, |s[t].props| - i - 1, 1
  {
    PopulateIs(s, x, t, slot, v, UpdateAll, top, i);
    StillUntouched(s, b, x, t, slot, v, top, i);
    PopulateShows(s, b, PopulateOne(s, x, t, slot, v, UpdateAll, top, i).st, y, t, slot, v, top, i + 1, c);
  }

  lemma StillUntouched(s: Schema, b: State, x: State, t: nat, slot: Slot, v: Value, top: bool, i: nat)
    requires t < |s| && i < |s[t].props| && Untouched(s, b, x, t, slot, v, top, i) && FieldsFresh(s, t, v, top, NoRepeatedKeys, i)
    ensures Untouched(s, b, PopulateOne(s, x, t, slot, v, UpdateAll, top, i).st, t, slot, v, top, i + 1)
  {
    var y := PopulateOne(s, x, t, slot, v, UpdateAll, top, i).st;
    PopulateOneFrame(s, x, t, slot, v, UpdateAll, top, i);
    PopulateOneRest(s, x, t, slot, v, top, i);
    OneStep(s, b, x, y, t, slot, v, top, i);
  }

  lemma OneStep(s: Schema, b: State, x: State, y: State, t: nat, slot: Slot, v: Value, top: bool, i: nat)
    requires t < |s| && i < |s[t].props| && Untouched(s, b, x, t, slot, v, top, i) && FieldsFresh(s, t, v, top, NoRepeatedKeys, i)
    requires Frame(s, x, y, NamesAt(s, t, v, top, i), Own(t, slot.row, i, i + 1)) && KeepsRest(s, x, y, Own(t, slot.row, i, i + 1))
    ensures Untouched(s, b, y, t, slot, v, top, i + 1)
  {
    var names, rest := NamesAt(s, t, v, top, i), FieldNames(s, t, v, top, i + 1);
    SteadyLess(s, b, x, FieldNames(s, t, v, top, i), rest);
    StepSteady(s, b, x, y, names, Own(t, slot.row, i, i + 1), rest);
    forall c | i + 1 <= c < |s[t].props| && s[t].pk != Some(c)
      ensures Get(y, Addr(t, slot.row, c)) == Prior(s, b, t, slot.row, slot.created, c)
    {
      LaterColumn(s, x, y, t, slot.row, i, c, names);
    }
    assert NameAt(s, y, t, slot.row) == NameAt(s, x, t, slot.row);
  }

  lemma StepSteady(s: Schema, b: State, x: State, y: State, m: set<Name>, o: Own, names: set<Name>)
    requires Wf(s, x) && Steady(s, b, x, names) && Frame(s, x, y, m, o) && Distinct(s, m, names)
    requires o.lo < o.hi ==> o.t < |s| && Foreign(s, x, o.t, o.r, names)
    ensures Steady(s, b, y, names)
  {
    FrameSteady(s, x, y, m, o, names);
    SteadyTrans(s, b, x, y, names);
  }

  lemma LaterColumn(s: Schema, x: State, y: State, t: nat, row: nat, i: nat, c: nat, names: set<Name>)
    requires Wf(s, x) && t < |s| && i < c < |s[t].props| && row < Count(x, t) && Foreign(s, x, t, row, names)
    requires Frame(s, x, y, names, Own(t, row, i, i + 1)) && KeepsRest(s, x, y, Own(t, row, i, i + 1))
    ensures Get(y, Addr(t, row, c)) == Get(x, Addr(t, row, c))
  {
    CellKept(s, x, y, names, Own(t, row, i, i + 1), Addr(t, row, c));
  }

  /** Setting the later properties leaves column `i` and its nested objects alone. */
  lemma LaterKeeps(s: Schema, b: State, x: State, t: nat, slot: Slot, v: Value, top: bool, i: nat)
    requires t < |s| && i < |s[t].props| && Wf(s, x) && slot.row < Count(b, t) <= Count(x, t)
    requires Foreign(s, x, t, slot.row, FieldNames(s, t, v, top, i)) && FieldsFresh(s, t, v, top, NoRepeatedKeys, i)
    requires ShowsField(s, b, x, t, slot.row, slot.created, v, top, i)
    ensures ShowsField(s, b, Populate(s, x, t, slot, v, UpdateAll, top, i + 1).st, t, slot.row, slot.created, v, top, i)
  {
    var y := Populate(s, x, t, slot, v, UpdateAll, top, i + 1).st;
    var names, rest := NamesAt(s, t, v, top, i), FieldNames(s, t, v, top, i + 1);
    var o := Own(t, slot.row, i + 1, |s[t].props|);
    PopulateFrame(s, x, t, slot, v, UpdateAll, top, i + 1);
    PopulateKeepsRest(s, x, t, slot, v, top, i + 1);
    DistinctSym(s, names, rest);
    StepBetween(s, b, x, y, rest, o, names);
    CellKept(s, x, y, rest, o, Addr(t, slot.row, i));
    FieldStable(s, b, b, x, y, t, slot.row, slot.created, v, top, i, names);
  }

  lemma DistinctSym(s: Schema, m: set<Name>, n: set<Name>)
    requires Distinct(s, m, n)
    ensures Distinct(s, n, m)
  {
  }

  /** Column `i` shows the value, and goes on to while the later properties are set. */
  lemma {:induction false} FirstShows(s: Schema, b: State, x: State, y: State, t: nat, slot: Slot, v: Value, top: bool, i: nat)
    requires t < |s| && i < |s[t].props| && Untouched(s, b, x, t, slot, v, top, i) && FieldsFresh(s, t, v, top, NoRepeatedKeys, i)
    requires Populate(s, x, t, slot, v, UpdateAll, top, i) == Ok(y, slot.row)
    ensures y in ShowingStates(s, b, t, slot, v, top, i)
    decreases top, v, 3, 1
  {
    var l := PopulateOne(s, x, t, slot, v, UpdateAll, top, i).st;
    var names := NamesAt(s, t, v, top, i);
    PopulateOneShows(s, b, x, t, slot, v, top, i);
    PopulateOneFrame(s, x, t, slot, v, UpdateAll, top, i);
    assert NameAt(s, l, t, slot.row) == NameAt(s, x, t, slot.row);
    LaterKeeps(s, x, l, t, slot, v, top, i);
    SteadyLess(s, b, x, FieldNames(s, t, v, top, i), names);
    RebaseBetween(s, b, x, y, names);
    RebaseField(s, b, x, y, t, slot, v, top, i, names);
  }

  lemma RebaseField(s: Schema, b: State, x: State, y: State, t: nat, slot: Slot, v: Value, top: bool, i: nat, names: set<Name>)
    requires t < |s| && i < |s[t].props| && Untouched(s, b, x, t, slot, v, top, i) && NamesAt(s, t, v, top, i) <= names
    requires Between(s, b, x, y, y, names) && ShowsField(s, x, y, t, slot.row, slot.created, v, top, i)
    ensures ShowsField(s, b, y, t, slot.row, slot.created, v, top, i)
  {
    if s[t].pk != Some(i) {
      assert Get(x, Addr(t, slot.row, i)) == Prior(s, b, t, slot.row, slot.created, i);
      FieldStable(s, b, x, y, y, t, slot.row, slot.created, v, top, i, names);
    }
  }

  /** Seen from just before, setting a property makes its column show the value. */
  lemma {:induction false} PopulateOneShows(s: Schema, b: State, x: State, t: nat, slot: Slot, v: Value, top: bool, i: nat)
    requires t < |s| && i < |s[t].props|
    requires Untouched(s, b, x, t, slot, v, top, i) && FieldsFresh(s, t, v, top, NoRepeatedKeys, i)
    requires PopulateOne(s, x, t, slot, v, UpdateAll, top, i).Ok?
    ensures ShowsField(s, x, PopulateOne(s, x, t, slot, v, UpdateAll, top, i).st, t, slot.row, slot.created, v, top, i)
    decreases top, v, 3, 0
  {
    var f := Supplied(s, t, v, i, top);
    if s[t].pk != Some(i) {
      assert Get(x, Addr(t, slot.row, i)) == Prior(s, b, t, slot.row, slot.created, i);
      if f.Given? && !(FieldOf(v, i).Absent? && !slot.created) {
        SetPropShows(s, x, t, slot.row, i, f.value, FieldOf(v, i).Absent?, SubTop(v, i, top));
      }
    }
  }

  lemma {:induction false} SetPropShows(s: Schema, x: State, t: nat, row: nat, c: nat, v: Value, isDefault: bool, top: bool)
    requires Wf(s, x) && t < |s| && c < |s[t].props| && s[t].pk != Some(c) && row < Count(x, t)
    requires Foreign(s, x, t, row, PropNames(s, s[t].props[c], v, top)) && PropFresh(s, s[t].props[c], v, top, NoRepeatedKeys)
    requires SetProp(s, x, t, row, c, v, UpdateAll, isDefault, top).Ok?
    requires isDefault ==> Get(x, Addr(t, row, c)) == InitialCell(s[t].props[c].ty)
    ensures var a := Addr(t, row, c);
      ShowsValue(s, x, SetProp(s, x, t, row, c, v, UpdateAll, isDefault, top).st, s[t].props[c], Get(x, a),
                 Get(SetProp(s, x, t, row, c, v, UpdateAll, isDefault, top).st, a), v, top)
    decreases top, v, 9, 0
  {
    var p := s[t].props[c];
    var a := Addr(t, row, c);
    assert a in x.cells;
    if !(p.ty.nullable && v.Null?) {
      if p.ty.list {
        AssignShows(s, x, a, v, top);
      } else {
        UpdateShows(s, x, a, v, top);
      }
    }
  }

  lemma {:induction false} UpdateShows(s: Schema, x: State, a: Addr, v: Value, top: bool)
    requires Wf(s, x) && a in x.cells && s[a.t].pk != Some(a.c) && !s[a.t].props[a.c].ty.list
    requires Foreign(s, x, a.t, a.r, ElemNames(s, s[a.t].props[a.c], v, top)) && ElemFresh(s, s[a.t].props[a.c], v, top, NoRepeatedKeys)
    requires Update(s, x, a, s[a.t].props[a.c], v, UpdateAll, top).Ok?
    ensures var p := s[a.t].props[a.c]; var y := Update(s, x, a, p, v, UpdateAll, top).st;
      ShowsItem(s, x, y, p, Get(y, a), v, top)
    decreases top, v, 8, 0
  {
    var p := s[a.t].props[a.c];
    var cur := LinkedRow(Get(x, a));
    var names := ElemNames(s, p, v, top);
    var u := UnboxItem(s, x, p, v, UpdateAll, cur, top);
    UnboxItemShows(s, x, p, v, cur, top);
    UnboxItemFrame(s, x, p, v, UpdateAll, cur, top);
    EditKeeps(s, x, u.st, a, SetTo(u.val), p, u.val, v, top, names);
  }

  /** An item keeps showing when a cell of a row it does not name is edited. */
  lemma EditKeeps(s: Schema, x: State, y: State, a: Addr, e: Edit, p: Property, cell: Cell, v: Value, top: bool, names: set<Name>)
    requires Wf(s, x) && Frame(s, x, y, names, NOTHING) && ValidProperty(|s|, p)
    requires a in x.cells && s[a.t].pk != Some(a.c) && Foreign(s, x, a.t, a.r, names) && ElemNames(s, p, v, top) <= names
    requires s[a.t].props[a.c].ty.list ==> Edited(Get(y, a), e).CList?
    requires ShowsItem(s, x, y, p, cell, v, top)
    ensures ShowsItem(s, x, Do(y, a, e), p, cell, v, top)
  {
    EditBetween(s, x, y, a, e, names);
    ItemStable(s, x, x, y, Do(y, a, e), p, cell, v, top, names);
  }

  lemma EditBetween(s: Schema, x: State, y: State, a: Addr, e: Edit, names: set<Name>)
    requires Wf(s, x) && Frame(s, x, y, names, NOTHING)
    requires a in x.cells && s[a.t].pk != Some(a.c) && Foreign(s, x, a.t, a.r, names)
    requires s[a.t].props[a.c].ty.list ==> Edited(Get(y, a), e).CList?
    ensures Between(s, x, x, y, Do(y, a, e), names)
  {
    assert a in y.cells && NameAt(s, y, a.t, a.r) == NameAt(s, x, a.t, a.r);
    DoFrame(s, y, a, e);
    EditRest(s, y, a, e);
    StepBetween(s, x, y, Do(y, a, e), {}, OwnCell(a), names);
  }

  lemma {:induction false} UnboxItemShows(s: Schema, x: State, p: Property, v: Value, cur: Option<nat>, top: bool)
    requires Wf(s, x) && ValidProperty(|s|, p) && ElemFresh(s, p, v, top, NoRepeatedKeys)
    requires UnboxItem(s, x, p, v, UpdateAll, cur, top).Ok?
    ensures var u := UnboxItem(s, x, p, v, UpdateAll, cur, top);
      ShowsItem(s, x, u.st, p, u.val, v, top)
    decreases top, v, 6, 0
  {
    if p.ty.base == Object && !v.Managed? {
      CreateShows(s, x, p.target, v, cur, top);
    }
  }

  // ----- lists

  lemma {:induction false} AssignShows(s: Schema, x: State, a: Addr, v: Value, top: bool)
    requires ListColumn(s, x, a)
    requires Foreign(s, x, a.t, a.r, PropNames(s, s[a.t].props[a.c], v, top)) && PropFresh(s, s[a.t].props[a.c], v, top, NoRepeatedKeys)
    requires !(s[a.t].props[a.c].ty.nullable && v.Null?) && s[a.t].props[a.c].ty.base != LinkingObjects
    requires Assign(s, x, a, s[a.t].props[a.c], v, UpdateAll, top).Ok?
    ensures var p := s[a.t].props[a.c]; var y := Assign(s, x, a, p, v, UpdateAll, top).st;
      ShowsValue(s, x, y, p, Get(x, a), Get(y, a), v, top)
    decreases top, v, 8, 0
  {
    if v.Values? {
      ClearedReady(s, x, a, ItemNames(s, s[a.t].props[a.c], v, top, 0));
      RefillShows(s, Do(x, a, ClearItems), a, v, 0, top);
      ItemsRebase(s, x, Do(x, a, ClearItems), Assign(s, x, a, s[a.t].props[a.c], v, UpdateAll, top).st, a, v, 0, 0, top,
                  ItemNames(s, s[a.t].props[a.c], v, top, 0));
    }
  }

  lemma ClearedReady(s: Schema, x: State, a: Addr, names: set<Name>)
    requires ListColumn(s, x, a) && Foreign(s, x, a.t, a.r, names)
    ensures var y := Do(x, a, ClearItems);
      ListColumn(s, y, a) && NameAt(s, y, a.t, a.r) == NameAt(s, x, a.t, a.r) && Steady(s, x, y, names) && Items(y, a) == []
  {
    DoFrame(s, x, a, ClearItems);
    DoWf(s, x, a, ClearItems);
    assert NameAt(s, Do(x, a, ClearItems), a.t, a.r) == NameAt(s, x, a.t, a.r);
    FrameSteady(s, x, Do(x, a, ClearItems), {}, OwnCell(a), names);
  }

  ghost function FilledStates(s: Schema, x: State, a: Addr, v: Value, i: nat, n: nat, top: bool): iset<State>
    requires a.t < |s| && a.c < |s[a.t].props| && v.Values? && i <= |v.elems|
  {
    iset y: State |
      && Get(y, a).CList?
      && |Items(y, a)| == n + |v.elems| - i
      && (forall j {:trigger v.elems[j]} :: i <= j < |v.elems| ==>
            ShowsItem(s, x, y, s[a.t].props[a.c], Items(y, a)[n + j - i], v.elems[j], top))
      && Ascends(s, s[a.t].props[a.c], Items(y, a)[n..], v.elems[i..], 0)
  }

  /** Position `n + j - i` of the list shows element `j`. */
  ghost predicate ShowsFrom(s: Schema, x: State, y: State, a: Addr, v: Value, i: nat, n: nat, top: bool)
    requires a.t < |s| && a.c < |s[a.t].props| && v.Values? && i <= |v.elems|
  {
    y in FilledStates(s, x, a, v, i, n, top)
  }

  lemma ItemsRebase(s: Schema, x: State, x1: State, y: State, a: Addr, v: Value, i: nat, n: nat, top: bool, names: set<Name>)
    requires a.t < |s| && a.c < |s[a.t].props| && v.Values? && i <= |v.elems|
    requires ItemNames(s, s[a.t].props[a.c], v, top, i) <= names && Steady(s, x, x1, names)
    requires ShowsFrom(s, x1, y, a, v, i, n, top)
    ensures ShowsFrom(s, x, y, a, v, i, n, top)
  {
    var p := s[a.t].props[a.c];
    RebaseBetween(s, x, x1, y, names);
    forall j | i <= j < |v.elems| ensures ShowsItem(s, x, y, p, Items(y, a)[n + j - i], v.elems[j], top) {
      ElemNamesWithin(s, p, v, top, i, j);
      ItemStable(s, x, x1, y, y, p, Items(y, a)[n + j - i], v.elems[j], top, names);
    }
  }

  lemma {:induction false} RefillShows(s: Schema, x: State, a: Addr, v: Value, i: nat, top: bool)
    requires ListColumn(s, x, a) && v.Values? && i <= |v.elems|
    requires Foreign(s, x, a.t, a.r, ItemNames(s, s[a.t].props[a.c], v, top, i))
    requires ItemsFresh(s, s[a.t].props[a.c], v, top, NoRepeatedKeys, i)
    requires Refill(s, x, a, s[a.t].props[a.c], v, UpdateAll, i, top).Ok?
    ensures var y := Refill(s, x, a, s[a.t].props[a.c], v, UpdateAll, i, top).st;
      && ShowsFrom(s, x, y, a, v, i, |Items(x, a)|, top)
      && Items(y, a)[..|Items(x, a)|] == Items(x, a)
    decreases top, v, 7, |v.elems| - i
  {
    var p := s[a.t].props[a.c];
    if i < |v.elems| {
      var u := UnboxItem(s, x, p, v.elems[i], UpdateAll, Some(0), top);
      var x2 := Do(u.st, a, AddItem(u.val));
      RefillStep(s, x, a, v, i, top);
      RefillShows(s, x2, a, v, i + 1, top);
      RefillLater(s, x, x2, a, v, i, u.val, top);
      RefillJoin(s, x, x2, Refill(s, x2, a, p, v, UpdateAll, i + 1, top).st, a, v, i, u.val, top);
    }
  }

  /** Element `i` was appended, then the later ones. */
  lemma RefillJoin(s: Schema, x: State, x2: State, y: State, a: Addr, v: Value, i: nat, cell: Cell, top: bool)
    requires a.t < |s| && a.c < |s[a.t].props| && v.Values? && i < |v.elems|
    requires Items(x2, a) == Items(x, a) + [cell] && Steady(s, x, x2, ItemNames(s, s[a.t].props[a.c], v, top, i + 1))
    requires ShowsItem(s, x, x2, s[a.t].props[a.c], cell, v.elems[i], top) && ShowsItem(s, x, y, s[a.t].props[a.c], cell, v.elems[i], top)
    requires ShowsFrom(s, x2, y, a, v, i + 1, |Items(x2, a)|, top) && Items(y, a)[..|Items(x2, a)|] == Items(x2, a)
    ensures ShowsFrom(s, x, y, a, v, i, |Items(x, a)|, top) && Items(y, a)[..|Items(x, a)|] == Items(x, a)
  {
    AscendsOneMore(s, x, x2, y, a, v, i, Items(x, a), cell, top);
    ItemsRebase(s, x, x2, y, a, v, i + 1, |Items(x2, a)|, top, ItemNames(s, s[a.t].props[a.c], v, top, i + 1));
    ShowsOneMore(s, x, y, a, v, i, Items(x, a), cell, top);
  }

  lemma NewRowShows(s: Schema, x: State, y: State, p: Property, cell: Cell, v: Value, top: bool)
    requires ValidProperty(|s|, p) && p.ty.base == Object && s[p.target].pk.None? && v.Unmanaged? && ShowsItem(s, x, y, p, cell, v, top)
    ensures cell.CLink? && Count(x, p.target) <= cell.row < Count(y, p.target)
  {
  }

  /** The later elements without a key were made after this one. */
  lemma AscendsOneMore(s: Schema, x: State, x2: State, y: State, a: Addr, v: Value, i: nat, before: seq<Cell>, cell: Cell, top: bool)
    requires a.t < |s| && a.c < |s[a.t].props| && v.Values? && i < |v.elems|
    requires ShowsItem(s, x, x2, s[a.t].props[a.c], cell, v.elems[i], top)
    requires ShowsFrom(s, x2, y, a, v, i + 1, |before| + 1, top) && Items(y, a)[..|before| + 1] == before + [cell]
    ensures Ascends(s, s[a.t].props[a.c], Items(y, a)[|before|..], v.elems[i..], 0)
  {
    var p := s[a.t].props[a.c];
    var items, elems := Items(y, a)[|before|..], v.elems[i..];
    assert Items(y, a)[|before| + 1..] == items[1..] && v.elems[i + 1..] == elems[1..];
    assert items[0] == Items(y, a)[..|before| + 1][|before|] == cell;
    if p.ty.base == Object && s[p.target].pk.None? {
      forall j, k | 0 <= j < k < |elems| && elems[j].Unmanaged? && elems[k].Unmanaged?
        ensures items[j].CLink? && items[k].CLink? && items[j].row < items[k].row
      {
        if j == 0 {
          assert v.elems[i + k] == elems[k] && v.elems[i] == elems[0] && items[k] == Items(y, a)[|before| + k];
          NewRowShows(s, x2, y, p, items[k], elems[k], top);
          NewRowShows(s, x, x2, p, cell, elems[0], top);
        } else {
          var later := Items(y, a)[|before| + 1..];
          assert later[j - 1] == items[j] && later[k - 1] == items[k];
          assert v.elems[i + 1..][j - 1] == elems[j] && v.elems[i + 1..][k - 1] == elems[k];
        }
      }
    }
  }

  lemma ShowsOneMore(s: Schema, x: State, y: State, a: Addr, v: Value, i: nat, before: seq<Cell>, cell: Cell, top: bool)
    requires a.t < |s| && a.c < |s[a.t].props| && v.Values? && i < |v.elems|
    requires ShowsFrom(s, x, y, a, v, i + 1, |before| + 1, top) && Items(y, a)[..|before| + 1] == before + [cell]
    requires ShowsItem(s, x, y, s[a.t].props[a.c], cell, v.elems[i], top)
    requires Ascends(s, s[a.t].props[a.c], Items(y, a)[|before|..], v.elems[i..], 0)
    ensures ShowsFrom(s, x, y, a, v, i, |before|, top) && Items(y, a)[..|before|] == before
  {
    assert Items(y, a)[|before|] == Items(y, a)[..|before| + 1][|before|] == cell;
    assert Items(y, a)[..|before|] == Items(y, a)[..|before| + 1][..|before|];
  }

  /** One element has been appended, and shows. */
  lemma {:induction false} RefillStep(s: Schema, x: State, a: Addr, v: Value, i: nat, top: bool)
    requires ListColumn(s, x, a) && v.Values? && i < |v.elems|
    requires Foreign(s, x, a.t, a.r, ItemNames(s, s[a.t].props[a.c], v, top, i))
    requires ItemsFresh(s, s[a.t].props[a.c], v, top, NoRepeatedKeys, i)
    requires UnboxItem(s, x, s[a.t].props[a.c], v.elems[i], UpdateAll, Some(0), top).Ok?
    ensures var p := s[a.t].props[a.c]; var u := UnboxItem(s, x, p, v.elems[i], UpdateAll, Some(0), top);
      var x2 := Do(u.st, a, AddItem(u.val));
      && ListColumn(s, x2, a) && NameAt(s, x2, a.t, a.r) == NameAt(s, x, a.t, a.r)
      && Items(x2, a) == Items(x, a) + [u.val]
      && ShowsItem(s, x, x2, p, u.val, v.elems[i], top)
      && Steady(s, x, x2, ItemNames(s, p, v, top, i + 1))
    decreases top, v, 6, 0
  {
    var p := s[a.t].props[a.c];
    var names, rest := ElemNames(s, p, v.elems[i], top), ItemNames(s, p, v, top, i + 1);
    var u := UnboxItem(s, x, p, v.elems[i], UpdateAll, Some(0), top);
    UnboxItemShows(s, x, p, v.elems[i], Some(0), top);
    UnboxItemFrame(s, x, p, v.elems[i], UpdateAll, Some(0), top);
    UnboxItemRest(s, x, p, v.elems[i], Some(0), top);
    CellKept(s, x, u.st, names, NOTHING, a);
    EditKeeps(s, x, u.st, a, AddItem(u.val), p, u.val, v.elems[i], top, names);
    ThenEdit(s, x, u.st, a, AddItem(u.val), names);
    FrameSteady(s, x, Do(u.st, a, AddItem(u.val)), names, OwnCell(a), rest);
    DoWf(s, u.st, a, AddItem(u.val));
    assert NameAt(s, Do(u.st, a, AddItem(u.val)), a.t, a.r) == NameAt(s, x, a.t, a.r);
  }

  /** Appending the later elements leaves what element `i` shows alone. */
  lemma RefillLater(s: Schema, x: State, x2: State, a: Addr, v: Value, i: nat, cell: Cell, top: bool)
    requires ListColumn(s, x2, a) && a.r < Count(x, a.t) && v.Values? && i < |v.elems|
    requires Foreign(s, x2, a.t, a.r, ItemNames(s, s[a.t].props[a.c], v, top, i))
    requires ItemsFresh(s, s[a.t].props[a.c], v, top, NoRepeatedKeys, i)
    requires ShowsItem(s, x, x2, s[a.t].props[a.c], cell, v.elems[i], top)
    ensures var p := s[a.t].props[a.c];
      ShowsItem(s, x, Refill(s, x2, a, p, v, UpdateAll, i + 1, top).st, p, cell, v.elems[i], top)
  {
    var p := s[a.t].props[a.c];
    var names, rest := ElemNames(s, p, v.elems[i], top), ItemNames(s, p, v, top, i + 1);
    var y := Refill(s, x2, a, p, v, UpdateAll, i + 1, top).st;
    RefillFrame(s, x2, a, v, UpdateAll, i + 1, top);
    RefillRest(s, x2, a, v, i + 1, top);
    DistinctSym(s, names, rest);
    StepBetween(s, x, x2, y, rest, OwnCell(a), names);
    ItemStable(s, x, x, x2, y, p, cell, v.elems[i], top, names);
  }
}
