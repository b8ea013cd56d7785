// What a successful `create` leaves behind, said without reference to how it runs:
// every supplied value reads back, and everything else is a default or unchanged.
module Reading {
  import opened Options
  import opened PropertyTypes
  import opened Store
  import opened Engine
  import opened Framing
  import opened FrameProofs
  import opened Policies
  import opened Keeping

  // ----- the reference

  /** In `y`, reached from `x`, the object with the value's key shows the value. */
  ghost predicate ShowsObject(s: Schema, x: State, y: State, t: nat, v: Value, top: bool)
    requires t < |s|
    decreases top, v, 5, 0
  {
    && s[t].pk.Some? && v.Unmanaged? && KeyOf(s, t, v).Good?
    && var key := KeyOf(s, t, v).val;
    && Find(s, y, t, key).Some?
    && (Find(s, x, t, key).Some? ==> Find(s, x, t, key) == Find(s, y, t, key))
    && forall c {:trigger ShowsField(s, x, y, t, Find(s, y, t, key).value, Find(s, x, t, key).None?, v, top, c)} :: 0 <= c < |s[t].props| ==>
         ShowsField(s, x, y, t, Find(s, y, t, key).value, Find(s, x, t, key).None?, v, top, c)
  }

  /** Row `row` is where the object is: the row that its key finds, or for a type without a
      key a row that is new since `x`. */
  ghost predicate ShowsAt(s: Schema, x: State, y: State, t: nat, row: nat, v: Value, top: bool)
    requires t < |s|
    decreases top, v, 5, 1
  {
    && v.Unmanaged?
    && if s[t].pk.Some? then
      ShowsObject(s, x, y, t, v, top) && Find(s, y, t, KeyOf(s, t, v).val) == Some(row)
    else
      && Count(x, t) <= row < Count(y, t)
      && forall c {:trigger ShowsField(s, x, y, t, row, true, v, top, c)} :: 0 <= c < |s[t].props| ==>
           ShowsField(s, x, y, t, row, true, v, top, c)
  }

  /** What a column held before it was set. */
  function Prior(s: Schema, x: State, t: nat, row: nat, created: bool, c: nat): Cell
    requires t < |s| && c < |s[t].props|
  {
    if created then InitialCell(s[t].props[c].ty) else Get(x, Addr(t, row, c))
  }

  /** A column shows the supplied value; failing that, the default if the row is new and
      has one; failing that, what it held before. */
  ghost predicate ShowsField(s: Schema, x: State, y: State, t: nat, row: nat, created: bool, v: Value, top: bool, c: nat)
    requires t < |s| && c < |s[t].props|
    decreases top, v, 4, 0
  {
    var f := Supplied(s, t, v, c, top);
    var cell := Get(y, Addr(t, row, c));
    var prior := Prior(s, x, t, row, created, c);
    if s[t].pk == Some(c) then true
    else if f.Absent? || (FieldOf(v, c).Absent? && !created) then cell == prior
    else ShowsValue(s, x, y, s[t].props[c], prior, cell, f.value, SubTop(v, c, top))
  }

  ghost predicate ShowsValue(s: Schema, x: State, y: State, p: Property, prior: Cell, cell: Cell, v: Value, top: bool)
    requires ValidProperty(|s|, p)
    decreases top, v, 7, 0
  {
    if p.ty.nullable && v.Null? then !p.ty.list && cell == CNull
    else if !p.ty.list then ShowsItem(s, x, y, p, cell, v, top)
    else if p.ty.base == LinkingObjects then false
    else if v.SameList? then cell == prior
    else if v.Null? then cell == CList([])
    else
      && v.Values? && cell.CList? && |cell.items| == |v.elems|
      && (forall j {:trigger ShowsItem(s, x, y, p, cell.items[j], v.elems[j], top)} :: 0 <= j < |v.elems| ==>
            ShowsItem(s, x, y, p, cell.items[j], v.elems[j], top))
      && Ascends(s, p, cell.items, v.elems, 0)
  }

  /** From position `i` on, objects without a key are different rows, in ascending order. */
  ghost predicate Ascends(s: Schema, p: Property, items: seq<Cell>, elems: seq<Value>, i: nat)
    requires ValidProperty(|s|, p)
  {
    p.ty.base == Object && s[p.target].pk.None? && |items| == |elems| ==>
      forall j, k {:trigger items[j], items[k]} :: i <= j < k < |elems| && elems[j].Unmanaged? && elems[k].Unmanaged? ==>
        items[j].CLink? && items[k].CLink? && items[j].row < items[k].row
  }

  /** A scalar shows itself, a managed object its row, an unmanaged object the row where it
      is, which in turn shows the object. */
  ghost predicate ShowsItem(s: Schema, x: State, y: State, p: Property, cell: Cell, v: Value, top: bool)
    requires ValidProperty(|s|, p)
    decreases top, v, 6, 0
  {
    if p.ty.base != Object then UnboxScalar(p.ty, v) == Good(cell)
    else if v.Managed? then v.table == p.target && v.row < Count(y, p.target) && cell == CLink(v.row)
    else cell.CLink? && ShowsAt(s, x, y, p.target, cell.row, v, top)
  }

  /** The row that `create` finds or adds, and what it holds. */
  lemma LocateShows(s: Schema, x: State, t: nat, v: Value, pol: Policy, cur: Option<nat>)
    requires Wf(s, x) && t < |s| && Locate(s, x, t, v, pol, cur).Ok?
    ensures var l := Locate(s, x, t, v, pol, cur); var key := KeyOf(s, t, v).val;
      && (l.val.created <==> Count(x, t) <= l.val.row)
      && (s[t].pk.Some? ==> Find(s, l.st, t, key) == Some(l.val.row))
      && (s[t].pk.Some? ==> Find(s, x, t, key) == if l.val.created then None else Some(l.val.row))
      && forall c :: 0 <= c < |s[t].props| && s[t].pk != Some(c) ==>
           Get(l.st, Addr(t, l.val.row, c)) == Prior(s, x, t, l.val.row, l.val.created, c)
  {
    LocatePrior(s, x, t, v, pol, cur);
    if s[t].pk.Some? {
      LocateFinds(s, x, t, v, pol, cur);
    }
  }

  lemma LocatePrior(s: Schema, x: State, t: nat, v: Value, pol: Policy, cur: Option<nat>)
    requires t < |s| && Locate(s, x, t, v, pol, cur).Ok?
    ensures var l := Locate(s, x, t, v, pol, cur);
      && (l.val.created <==> Count(x, t) <= l.val.row)
      && forall c :: 0 <= c < |s[t].props| && s[t].pk != Some(c) ==>
           Get(l.st, Addr(t, l.val.row, c)) == Prior(s, x, t, l.val.row, l.val.created, c)
  {
  }

  lemma LocateFinds(s: Schema, x: State, t: nat, v: Value, pol: Policy, cur: Option<nat>)
    requires Wf(s, x) && t < |s| && s[t].pk.Some? && Locate(s, x, t, v, pol, cur).Ok?
    ensures var l := Locate(s, x, t, v, pol, cur);
      Find(s, l.st, t, KeyOf(s, t, v).val) == Some(l.val.row)
  {
    var key := KeyOf(s, t, v).val;
    if Find(s, x, t, key).None? {
      var init := InitialRow(s[t].props)[s[t].pk.value := key];
      AddRowKeys(s, x, t, init);
      var y := AddRow(x, t, init);
      forall r | 0 <= r < Count(x, t) ensures KeyAt(s, y, t, r) != key {
        assert KeyAt(s, y, t, r) == KeyAt(s, x, t, r);
      }
      assert KeyAt(s, y, t, Count(x, t)) == key;
    }
  }

  // ----- rows that a step does not disturb

  ghost predicate SteadyRows(s: Schema, x: State, y: State, names: set<Name>) {
    && (forall t {:trigger Count(y, t)} :: Count(x, t) <= Count(y, t))
    && (forall t, key {:trigger Find(s, y, t, key)} :: 0 <= t < |s| && s[t].pk.Some? && Name(t, key) in names ==>
          Find(s, x, t, key) == Find(s, y, t, key))
  }

  ghost predicate SteadyCells(s: Schema, x: State, y: State, names: set<Name>) {
    forall t, r, c {:trigger Get(y, Addr(t, r, c))} ::
      0 <= t < |s| && s[t].pk.Some? && 0 <= r < Count(x, t) && 0 <= c < |s[t].props| && NameAt(s, x, t, r) in names ==>
        Get(x, Addr(t, r, c)) == Get(y, Addr(t, r, c)) && NameAt(s, y, t, r) == NameAt(s, x, t, r)
  }

  ghost function SteadyPairs(s: Schema, names: set<Name>): iset<(State, State)> {
    iset f: (State, State) | SteadyRows(s, f.0, f.1, names) && SteadyCells(s, f.0, f.1, names)
  }

  /** From `x` to `y`, nothing happened to the keyed objects with these names. */
  ghost predicate Steady(s: Schema, x: State, y: State, names: set<Name>) {
    (x, y) in SteadyPairs(s, names)
  }

  /** The row, if it has a key, has none of the names. */
  ghost predicate Foreign(s: Schema, x: State, t: nat, r: nat, names: set<Name>)
    requires t < |s|
  {
    s[t].pk.Some? ==> NameAt(s, x, t, r) !in names
  }

  lemma FindStable(s: Schema, x: State, y: State, t: nat, key: Cell)
    requires t < |s| && KeysStable(s, x, y) && Find(s, x, t, key).Some?
    ensures Find(s, y, t, key) == Find(s, x, t, key)
  {
    var r := Find(s, x, t, key).value;
    assert KeyAt(s, y, t, r) == key && Count(x, t) <= Count(y, t);
  }

  /** The key of the value finds the row that `create` returns. */
  lemma CreateFinds(s: Schema, x: State, t: nat, v: Value, pol: Policy, cur: Option<nat>, top: bool)
    requires Wf(s, x) && t < |s| && s[t].pk.Some? && Create(s, x, t, v, pol, cur, top).Ok?
    ensures var r := Create(s, x, t, v, pol, cur, top);
      KeyOf(s, t, v).Good? && Find(s, r.st, t, KeyOf(s, t, v).val) == Some(r.val)
  {
    var key := KeyOf(s, t, v).val;
    var l := Locate(s, x, t, v, pol, cur);
    LocateFrame(s, x, t, v, pol, cur);
    LocateFinds(s, x, t, v, pol, cur);
    PopulateFrame(s, l.st, t, l.val, v, pol, top, 0);
    FindStable(s, l.st, Create(s, x, t, v, pol, cur, top).st, t, key);
  }

  lemma FrameSteadyRows(s: Schema, x: State, y: State, m: set<Name>, o: Own, names: set<Name>)
    requires Wf(s, x) && Frame(s, x, y, m, o) && Distinct(s, m, names)
    ensures SteadyRows(s, x, y, names)
  {
    forall t, key | 0 <= t < |s| && s[t].pk.Some? && Name(t, key) in names
      ensures Find(s, x, t, key) == Find(s, y, t, key)
    {
      if Find(s, x, t, key).Some? {
        FindStable(s, x, y, t, key);
      } else if Find(s, y, t, key).Some? {
        FoundIsOld(s, x, y, m, o, t, key);
      }
    }
  }

  lemma FrameSteadyCells(s: Schema, x: State, y: State, m: set<Name>, o: Own, names: set<Name>)
    requires Wf(s, x) && Frame(s, x, y, m, o) && Distinct(s, m, names)
    requires o.lo < o.hi ==> o.t < |s| && Foreign(s, x, o.t, o.r, names)
    ensures SteadyCells(s, x, y, names)
  {
    forall t, r, c | 0 <= t < |s| && s[t].pk.Some? && 0 <= r < Count(x, t) && 0 <= c < |s[t].props| && NameAt(s, x, t, r) in names
      ensures Get(x, Addr(t, r, c)) == Get(y, Addr(t, r, c)) && NameAt(s, y, t, r) == NameAt(s, x, t, r)
    {
      assert Addr(t, r, c) in x.cells;
    }
  }

  lemma FrameSteady(s: Schema, x: State, y: State, m: set<Name>, o: Own, names: set<Name>)
    requires Wf(s, x) && Frame(s, x, y, m, o) && Distinct(s, m, names)
    requires o.lo < o.hi ==> o.t < |s| && Foreign(s, x, o.t, o.r, names)
    ensures Steady(s, x, y, names)
  {
    FrameSteadyRows(s, x, y, m, o, names);
    FrameSteadyCells(s, x, y, m, o, names);
  }

  lemma FoundIsOld(s: Schema, x: State, y: State, m: set<Name>, o: Own, t: nat, key: Cell)
    requires Wf(s, x) && Frame(s, x, y, m, o) && t < |s| && Name(t, key) !in m
    requires Find(s, y, t, key).Some?
    ensures Find(s, x, t, key).Some?
  {
    var r := Find(s, y, t, key).value;
    assert NameAt(s, y, t, r) == Name(t, key);
    if r < Count(x, t) {
      assert KeyAt(s, y, t, r) == KeyAt(s, x, t, r);
    }
  }

  lemma SteadyTrans(s: Schema, x: State, y: State, z: State, names: set<Name>)
    requires Steady(s, x, y, names) && Steady(s, y, z, names)
    ensures Steady(s, x, z, names)
  {
    forall t ensures Count(x, t) <= Count(z, t) {
      assert Count(x, t) <= Count(y, t);
    }
    forall t, key | 0 <= t < |s| && s[t].pk.Some? && Name(t, key) in names
      ensures Find(s, x, t, key) == Find(s, z, t, key)
    {
      assert Find(s, x, t, key) == Find(s, y, t, key);
    }
    forall t, r, c | 0 <= t < |s| && s[t].pk.Some? && 0 <= r < Count(x, t) && 0 <= c < |s[t].props| && NameAt(s, x, t, r) in names
      ensures Get(x, Addr(t, r, c)) == Get(z, Addr(t, r, c)) && NameAt(s, z, t, r) == NameAt(s, x, t, r)
    {
      assert Count(x, t) <= Count(y, t);
      assert Get(x, Addr(t, r, c)) == Get(y, Addr(t, r, c));
    }
  }

  lemma SteadyLess(s: Schema, x: State, y: State, names: set<Name>, fewer: set<Name>)
    requires Steady(s, x, y, names) && fewer <= names
    ensures Steady(s, x, y, fewer)
  {
  }

  lemma {:induction false} NamesAtWithin(s: Schema, t: nat, v: Value, top: bool, i: nat, c: nat)
    requires t < |s| && i <= c < |s[t].props|
    ensures NamesAt(s, t, v, top, c) <= FieldNames(s, t, v, top, i)
    decreases c - i
  {
    if i < c {
      NamesAtWithin(s, t, v, top, i + 1, c);
    }
  }

  lemma {:induction false} ElemNamesWithin(s: Schema, p: Property, v: Value, top: bool, i: nat, j: nat)
    requires ValidProperty(|s|, p) && v.Values? && i <= j < |v.elems|
    ensures ElemNames(s, p, v.elems[j], top) <= ItemNames(s, p, v, top, i)
    decreases j - i
  {
    if i < j {
      ElemNamesWithin(s, p, v, top, i + 1, j);
    }
  }

  // ----- what shows keeps showing while its objects are steady

  ghost predicate SparedCells(s: Schema, x: State, y: State, y1: State) {
    forall a: Addr {:trigger Get(y1, a)} ::
      a.t < |s| && s[a.t].pk.None? && Count(x, a.t) <= a.r < Count(y, a.t) && a.c < |s[a.t].props| ==> Get(y1, a) == Get(y, a)
  }

  ghost function SparedStates(s: Schema, x: State, y: State): iset<State> {
    iset y1: State | SparedCells(s, x, y, y1)
  }

  /** From `y` to `y1`, nothing happened to the objects without a key that were made between
      `x` and `y`. */
  ghost predicate Spared(s: Schema, x: State, y: State, y1: State) {
    y1 in SparedStates(s, x, y)
  }

  lemma RestSpared(s: Schema, x: State, y: State, y1: State, o: Own)
    requires Wf(s, y) && KeepsRest(s, y, y1, o) && (o.lo < o.hi ==> o.t < |s| && o.r < Count(x, o.t))
    ensures Spared(s, x, y, y1)
  {
    forall a: Addr | a.t < |s| && s[a.t].pk.None? && Count(x, a.t) <= a.r < Count(y, a.t) && a.c < |s[a.t].props|
      ensures Get(y1, a) == Get(y, a)
    {
      assert a in y.cells;
      RestKept(s, y, y1, o, a);
    }
  }

  /** Nothing happened to the named objects before `x` or after `y`, nor after `y` to objects
      without a key that were made since `x`. */
  ghost predicate Between(s: Schema, x0: State, x: State, y: State, y1: State, names: set<Name>) {
    Steady(s, x0, x, names) && Steady(s, y, y1, names) && Spared(s, x, y, y1)
  }

  lemma SteadyRefl(s: Schema, x: State, names: set<Name>)
    ensures Steady(s, x, x, names)
  {
  }

  lemma RebaseBetween(s: Schema, x0: State, x: State, y: State, names: set<Name>)
    requires Steady(s, x0, x, names)
    ensures Between(s, x0, x, y, y, names)
  {
    SteadyRefl(s, y, names);
  }

  /** A step within a frame that does not concern the names. */
  lemma StepBetween(s: Schema, x: State, y: State, y1: State, m: set<Name>, o: Own, names: set<Name>)
    requires Wf(s, y) && Frame(s, y, y1, m, o) && KeepsRest(s, y, y1, o) && Distinct(s, m, names)
    requires o.lo < o.hi ==> o.t < |s| && o.r < Count(x, o.t) && Foreign(s, y, o.t, o.r, names)
    ensures Between(s, x, x, y, y1, names)
  {
    SteadyRefl(s, x, names);
    FrameSteady(s, y, y1, m, o, names);
    RestSpared(s, x, y, y1, o);
  }

  /** A cell outside the frame of a step, in a row that the step does not name. */
  lemma CellKept(s: Schema, x: State, y: State, m: set<Name>, o: Own, a: Addr)
    requires Wf(s, x) && Frame(s, x, y, m, o) && KeepsRest(s, x, y, o)
    requires a in x.cells && !InOwn(a, o) && Foreign(s, x, a.t, a.r, m)
    ensures a in y.cells && Get(y, a) == Get(x, a) && NameAt(s, y, a.t, a.r) == NameAt(s, x, a.t, a.r)
  {
    if s[a.t].pk.Some? {
      Unchanged(s, x, y, m, o, a);
    } else {
      RestKept(s, x, y, o, a);
    }
  }

  lemma {:induction false} ObjectStable(s: Schema, x0: State, x: State, y: State, y1: State, t: nat, v: Value, top: bool, names: set<Name>)
    requires t < |s| && ShowsObject(s, x, y, t, v, top) && Names(s, t, v, top) <= names
    requires Between(s, x0, x, y, y1, names)
    ensures ShowsObject(s, x0, y1, t, v, top)
    ensures Find(s, y1, t, KeyOf(s, t, v).val) == Find(s, y, t, KeyOf(s, t, v).val)
    decreases top, v, 5, 0
  {
    var key := KeyOf(s, t, v).val;
    assert Name(t, key) in names;
    assert Find(s, x0, t, key) == Find(s, x, t, key) && Find(s, y, t, key) == Find(s, y1, t, key);
    var row, created := Find(s, y, t, key).value, Find(s, x, t, key).None?;
    forall c | 0 <= c < |s[t].props|
      ensures ShowsField(s, x0, y1, t, row, created, v, top, c)
    {
      assert ShowsField(s, x, y, t, row, created, v, top, c);
      NamesAtWithin(s, t, v, top, 0, c);
      assert NameAt(s, y, t, row) == Name(t, key);
      assert Get(y1, Addr(t, row, c)) == Get(y, Addr(t, row, c));
      if !created {
        assert NameAt(s, x0, t, row) == Name(t, key);
        assert Get(x, Addr(t, row, c)) == Get(x0, Addr(t, row, c));
      }
      FieldStable(s, x0, x, y, y1, t, row, created, v, top, c, names);
    }
  }

  lemma {:induction false} RowStable(s: Schema, x0: State, x: State, y: State, y1: State, t: nat, row: nat, v: Value, top: bool, names: set<Name>)
    requires t < |s| && s[t].pk.None? && ShowsAt(s, x, y, t, row, v, top) && Names(s, t, v, top) <= names
    requires Between(s, x0, x, y, y1, names)
    ensures ShowsAt(s, x0, y1, t, row, v, top)
    decreases top, v, 5, 0
  {
    assert Count(x0, t) <= Count(x, t) && Count(y, t) <= Count(y1, t);
    forall c | 0 <= c < |s[t].props|
      ensures ShowsField(s, x0, y1, t, row, true, v, top, c)
    {
      assert ShowsField(s, x, y, t, row, true, v, top, c);
      NamesAtWithin(s, t, v, top, 0, c);
      assert Get(y1, Addr(t, row, c)) == Get(y, Addr(t, row, c));
      FieldStable(s, x0, x, y, y1, t, row, true, v, top, c, names);
    }
  }

  lemma {:induction false} FieldStable(s: Schema, x0: State, x: State, y: State, y1: State, t: nat, row: nat, created: bool, v: Value,
                                       top: bool, c: nat, names: set<Name>)
    requires t < |s| && c < |s[t].props| && ShowsField(s, x, y, t, row, created, v, top, c) && NamesAt(s, t, v, top, c) <= names
    requires Between(s, x0, x, y, y1, names)
    requires Get(y1, Addr(t, row, c)) == Get(y, Addr(t, row, c))
    requires Prior(s, x0, t, row, created, c) == Prior(s, x, t, row, created, c)
    ensures ShowsField(s, x0, y1, t, row, created, v, top, c)
    decreases top, v, 4, 0
  {
    var f := Supplied(s, t, v, c, top);
    if s[t].pk != Some(c) && f.Given? && !(FieldOf(v, c).Absent? && !created) {
      ValueStable(s, x0, x, y, y1, s[t].props[c], Prior(s, x, t, row, created, c), Get(y, Addr(t, row, c)), f.value, SubTop(v, c, top), names);
    }
  }

  lemma {:induction false} ValueStable(s: Schema, x0: State, x: State, y: State, y1: State, p: Property, prior: Cell, cell: Cell, v: Value,
                                       top: bool, names: set<Name>)
    requires ValidProperty(|s|, p) && ShowsValue(s, x, y, p, prior, cell, v, top) && PropNames(s, p, v, top) <= names
    requires Between(s, x0, x, y, y1, names)
    ensures ShowsValue(s, x0, y1, p, prior, cell, v, top)
    decreases top, v, 7, 0
  {
    if !(p.ty.nullable && v.Null?) {
      if !p.ty.list {
        ItemStable(s, x0, x, y, y1, p, cell, v, top, names);
      } else if v.Values? {
        forall j | 0 <= j < |v.elems|
          ensures ShowsItem(s, x0, y1, p, cell.items[j], v.elems[j], top)
        {
          assert ShowsItem(s, x, y, p, cell.items[j], v.elems[j], top);
          ElemNamesWithin(s, p, v, top, 0, j);
          ItemStable(s, x0, x, y, y1, p, cell.items[j], v.elems[j], top, names);
        }
      }
    }
  }

  lemma {:induction false} ItemStable(s: Schema, x0: State, x: State, y: State, y1: State, p: Property, cell: Cell, v: Value, top: bool, names: set<Name>)
    requires ValidProperty(|s|, p) && ShowsItem(s, x, y, p, cell, v, top) && ElemNames(s, p, v, top) <= names
    requires Between(s, x0, x, y, y1, names)
    ensures ShowsItem(s, x0, y1, p, cell, v, top)
    decreases top, v, 6, 0
  {
    if p.ty.base == Object {
      if v.Managed? {
        assert Count(y, p.target) <= Count(y1, p.target);
      } else if s[p.target].pk.Some? {
        ObjectStable(s, x0, x, y, y1, p.target, v, top, names);
      } else {
        RowStable(s, x0, x, y, y1, p.target, cell.row, v, top, names);
      }
    }
  }
}
