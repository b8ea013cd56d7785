// Objects of types without a key: overwriting policies give every link and list position a
// row of its own, and `UpdateModified` writes into the row that is linked already.
module UnkeyedObjects {
  import opened Options
  import opened PropertyTypes
  import opened Store
  import opened Engine
  import opened Framing
  import opened FrameProofs
  import opened Policies
  import opened Keeping
  import opened Reading
  import opened ReadBack
  import opened Idempotence
  import opened Validation
  import opened PropertyWrites
  import opened Runs

  /** Row `row` shows the object column by column; unless it is new, what is not supplied is as
      it was in `x`. */
  ghost predicate ShowsRow(s: Schema, x: State, y: State, t: nat, row: nat, created: bool, v: Value)
    requires t < |s|
  {
    forall c {:trigger ShowsField(s, x, y, t, row, created, v, true, c)} :: 0 <= c < |s[t].props| ==>
      ShowsField(s, x, y, t, row, created, v, true, c)
  }

  /** A property for objects of a type without a key. */
  predicate Unkeyed(s: Schema, p: Property) {
    ValidProperty(|s|, p) && p.ty.base == Object && s[p.target].pk.None?
  }

  // ----- overwriting

  /** After a list of objects without a key has been assigned under an overwriting policy, its
      items are links to rows that are new, different and in ascending order, and each row
      shows the element at its position. */
  lemma ListOfNewObjects(s: Schema, x: State, t: nat, row: nat, c: nat, v: Value, pol: Policy, j: nat)
    requires Wf(s, x) && t < |s| && c < |s[t].props| && Unkeyed(s, s[t].props[c]) && s[t].props[c].ty.list && pol != UpdateModified
    requires Settable(s, x, t, row, c, v, NoRepeatedKeys) && SetPropertyValue(s, x, t, row, c, v, pol).Ok?
    requires v.Values? && j < |v.elems| && v.elems[j].Unmanaged?
    ensures var y := SetPropertyValue(s, x, t, row, c, v, pol).st; var items := Items(y, Addr(t, row, c)); var u := s[t].props[c].target;
      && |items| == |v.elems|
      && items[j].CLink? && Count(x, u) <= items[j].row < Count(y, u)
      && (forall k :: j < k < |items| && v.elems[k].Unmanaged? ==> items[k].CLink? && items[j].row < items[k].row)
      && ShowsRow(s, x, y, u, items[j].row, true, v.elems[j])
  {
    var p := s[t].props[c];
    var y := SetPropertyValue(s, x, t, row, c, v, pol).st;
    var items := Items(y, Addr(t, row, c));
    SetShows(s, x, t, row, c, v, pol);
    assert ShowsItem(s, x, y, p, items[j], v.elems[j], true);
    NewRowShows(s, x, y, p, items[j], v.elems[j], true);
    assert ShowsAt(s, x, y, p.target, items[j].row, v.elems[j], true);
    forall k | j < k < |items| && v.elems[k].Unmanaged? ensures items[k].CLink? && items[j].row < items[k].row {
      assert Ascends(s, p, items, v.elems, 0);
    }
  }

  /** A link to an object without a key leads to a new row that shows it. */
  lemma LinkToNewObject(s: Schema, x: State, t: nat, row: nat, c: nat, v: Value, pol: Policy)
    requires Wf(s, x) && t < |s| && c < |s[t].props| && Unkeyed(s, s[t].props[c]) && !s[t].props[c].ty.list && pol != UpdateModified
    requires Settable(s, x, t, row, c, v, NoRepeatedKeys) && SetPropertyValue(s, x, t, row, c, v, pol).Ok? && v.Unmanaged?
    ensures var y := SetPropertyValue(s, x, t, row, c, v, pol).st; var cell := Get(y, Addr(t, row, c)); var u := s[t].props[c].target;
      && cell.CLink? && Count(x, u) <= cell.row < Count(y, u)
      && ShowsRow(s, x, y, u, cell.row, true, v)
  {
    var p := s[t].props[c];
    var y := SetPropertyValue(s, x, t, row, c, v, pol).st;
    var cell := Get(y, Addr(t, row, c));
    SetShows(s, x, t, row, c, v, pol);
    assert ShowsItem(s, x, y, p, cell, v, true);
    NewRowShows(s, x, y, p, cell, v, true);
    assert ShowsAt(s, x, y, p.target, cell.row, v, true);
  }

  // ----- the names in a tree of keyed objects

  ghost predicate AllKeyed(s: Schema, names: set<Name>) {
    forall n {:trigger n in names} :: n in names ==> n.t < |s| && s[n.t].pk.Some?
  }

  lemma {:induction false} NamesKeyed(s: Schema, t: nat, v: Value, top: bool)
    requires t < |s| && s[t].pk.Some? && Fresh(s, t, v, top, NoRepeats)
    ensures AllKeyed(s, Names(s, t, v, top))
    decreases top, v, 2, 0
  {
    if v.Unmanaged? && KeyOf(s, t, v).Good? {
      FieldNamesKeyed(s, t, v, top, 0);
    }
  }

  lemma {:induction false} FieldNamesKeyed(s: Schema, t: nat, v: Value, top: bool, i: nat)
    requires t < |s| && i <= |s[t].props| && FieldsFresh(s, t, v, top, NoRepeats, i)
    ensures AllKeyed(s, FieldNames(s, t, v, top, i))
    decreases top, v, 1, |s[t].props| - i
  {
    if i < |s[t].props| {
      var f := Supplied(s, t, v, i, top);
      if s[t].pk != Some(i) && f.Given? {
        PropNamesKeyed(s, s[t].props[i], f.value, SubTop(v, i, top));
      }
      FieldNamesKeyed(s, t, v, top, i + 1);
    }
  }

  lemma {:induction false} PropNamesKeyed(s: Schema, p: Property, v: Value, top: bool)
    requires ValidProperty(|s|, p) && PropFresh(s, p, v, top, NoRepeats)
    ensures AllKeyed(s, PropNames(s, p, v, top))
    decreases top, v, 5, 0
  {
    if !p.ty.list {
      ElemNamesKeyed(s, p, v, top);
    } else if v.Values? {
      ItemNamesKeyed(s, p, v, top, 0);
    }
  }

  lemma {:induction false} ItemNamesKeyed(s: Schema, p: Property, v: Value, top: bool, i: nat)
    requires ValidProperty(|s|, p) && v.Values? && i <= |v.elems| && ItemsFresh(s, p, v, top, NoRepeats, i)
    ensures AllKeyed(s, ItemNames(s, p, v, top, i))
    decreases top, v, 4, |v.elems| - i
  {
    if i < |v.elems| {
      ElemNamesKeyed(s, p, v.elems[i], top);
      ItemNamesKeyed(s, p, v, top, i + 1);
    }
  }

  lemma {:induction false} ElemNamesKeyed(s: Schema, p: Property, v: Value, top: bool)
    requires ValidProperty(|s|, p) && ElemFresh(s, p, v, top, NoRepeats)
    ensures AllKeyed(s, ElemNames(s, p, v, top))
    decreases top, v, 3, 0
  {
    if p.ty.base == Object && v.Unmanaged? {
      NamesKeyed(s, p.target, v, top);
    }
  }

  // ----- one object in place

  /** With `UpdateModified`, an object without a key is written into the current row, which
      then shows it; the step touches that row and the keyed objects nested in the value. */
  lemma CreateInPlace(s: Schema, x: State, t: nat, v: Value, row: nat)
    requires Wf(s, x) && t < |s| && s[t].pk.None? && v.Unmanaged? && FieldsFresh(s, t, v, true, NoRepeats, 0)
    requires Create(s, x, t, v, UpdateModified, Some(row), true).Ok?
    ensures var r := Create(s, x, t, v, UpdateModified, Some(row), true);
      && r.val == row < Count(x, t)
      && Frame(s, x, r.st, FieldNames(s, t, v, true, 0), Own(t, row, 0, |s[t].props|))
      && ShowsRow(s, x, r.st, t, row, false, v)
  {
    var r := Create(s, x, t, v, UpdateModified, Some(row), true);
    assert Locate(s, x, t, v, UpdateModified, Some(row)) == Ok(x, Slot(row, false));
    PopulateFrame(s, x, t, Slot(row, false), v, UpdateModified, true, 0);
    FieldNamesKeyed(s, t, v, true, 0);
    assert Fresh(s, t, v, true, NoRepeats);
    forall c | 0 <= c < |s[t].props| ensures ShowsField(s, x, r.st, t, row, false, v, true, c) {
      CreateReads(s, x, t, v, UpdateModified, Some(row), c);
    }
  }

  // ----- a later step elsewhere

  ghost predicate SameKeyless(s: Schema, x: State, y: State) {
    forall t :: 0 <= t < |s| && s[t].pk.None? ==> Count(y, t) == Count(x, t)
  }

  lemma KeyedStep(s: Schema, x: State, y: State, m: set<Name>, o: Own)
    requires Frame(s, x, y, m, o) && AllKeyed(s, m)
    ensures SameKeyless(s, x, y)
  {
    forall t | 0 <= t < |s| && s[t].pk.None? ensures Count(y, t) == Count(x, t) {
      var next := NameAt(s, y, t, Count(x, t));
      assert Count(x, t) <= Count(y, t);
    }
  }

  /** A row without a key goes on showing a value while other rows are written. */
  lemma RowShowsOn(s: Schema, x: State, y: State, z: State, t: nat, row: nat, v: Value, m: set<Name>, o: Own)
    requires Wf(s, y) && t < |s| && s[t].pk.None? && row < Count(y, t) && ShowsRow(s, x, y, t, row, false, v)
    requires SameKeyless(s, x, y) && Frame(s, y, z, m, o) && AllKeyed(s, m) && !(o.t == t && o.r == row)
    requires Distinct(s, m, FieldNames(s, t, v, true, 0)) && (o.lo < o.hi ==> o.t < |s| && Foreign(s, y, o.t, o.r, FieldNames(s, t, v, true, 0)))
    ensures ShowsRow(s, x, z, t, row, false, v)
  {
    var names := FieldNames(s, t, v, true, 0);
    SteadyRefl(s, x, names);
    FrameSteady(s, y, z, m, o, names);
    assert SparedCells(s, x, y, z);
    forall c | 0 <= c < |s[t].props| ensures ShowsField(s, x, z, t, row, false, v, true, c) {
      assert ShowsField(s, x, y, t, row, false, v, true, c);
      assert NameAt(s, y, t, row) !in m;
      Unchanged(s, y, z, m, o, Addr(t, row, c));
      NamesAtWithin(s, t, v, true, 0, c);
      FieldStable(s, x, x, y, z, t, row, false, v, true, c, names);
    }
  }

  /** A row without a key, and what is nested in the value for it, before it is written. */
  ghost predicate Awaits(s: Schema, x: State, y: State, t: nat, row: nat, v: Value)
    requires t < |s|
  {
    && Steady(s, x, y, FieldNames(s, t, v, true, 0))
    && SameKeyless(s, x, y)
    && forall c {:trigger Addr(t, row, c)} :: 0 <= c < |s[t].props| ==> Get(y, Addr(t, row, c)) == Get(x, Addr(t, row, c))
  }

  lemma AwaitsOn(s: Schema, x: State, y: State, z: State, t: nat, row: nat, v: Value, m: set<Name>, o: Own)
    requires Wf(s, y) && t < |s| && s[t].pk.None? && row < Count(y, t) && Awaits(s, x, y, t, row, v)
    requires Frame(s, y, z, m, o) && AllKeyed(s, m) && !(o.t == t && o.r == row)
    requires Distinct(s, m, FieldNames(s, t, v, true, 0)) && (o.lo < o.hi ==> o.t < |s| && Foreign(s, y, o.t, o.r, FieldNames(s, t, v, true, 0)))
    ensures Awaits(s, x, z, t, row, v)
  {
    FrameSteady(s, y, z, m, o, FieldNames(s, t, v, true, 0));
    SteadyTrans(s, x, y, z, FieldNames(s, t, v, true, 0));
    KeyedStep(s, y, z, m, o);
    forall c | 0 <= c < |s[t].props| ensures Get(z, Addr(t, row, c)) == Get(x, Addr(t, row, c)) {
      assert NameAt(s, y, t, row) !in m;
      Unchanged(s, y, z, m, o, Addr(t, row, c));
    }
  }

  /** Seen from `x`, where it waited, the row shows the value. */
  lemma RebaseRow(s: Schema, x: State, y: State, z: State, t: nat, row: nat, v: Value)
    requires t < |s| && Awaits(s, x, y, t, row, v) && ShowsRow(s, y, z, t, row, false, v)
    ensures ShowsRow(s, x, z, t, row, false, v)
  {
    var names := FieldNames(s, t, v, true, 0);
    RebaseBetween(s, x, y, z, names);
    forall c | 0 <= c < |s[t].props| ensures ShowsField(s, x, z, t, row, false, v, true, c) {
      assert ShowsField(s, y, z, t, row, false, v, true, c);
      assert Get(y, Addr(t, row, c)) == Get(x, Addr(t, row, c));
      NamesAtWithin(s, t, v, true, 0, c);
      FieldStable(s, x, y, z, z, t, row, false, v, true, c, names);
    }
  }

  // ----- lists in place

  /** The row that element `j` is written into: the one that is linked at its position, and
      beyond the end of the list, where `List::add` passes no current row, row 0. */
  function RowOf(prev: seq<Cell>, j: nat): nat {
    if j < |prev| && prev[j].CLink? then prev[j].row else 0
  }

  ghost predicate ElementInPlace(s: Schema, a: Addr, owner: Name, p: Property, e: Value, row: nat)
    requires Unkeyed(s, p)
  {
    && e.Unmanaged? && FieldsFresh(s, p.target, e, true, NoRepeats, 0)
    && owner !in FieldNames(s, p.target, e, true, 0)
    && !(a.t == p.target && a.r == row)
  }

  /** A list of links and elements for it: objects without a key, in whose values only keyed
      objects are nested, and which do not concern the owner of the list. */
  ghost predicate InPlace(s: Schema, a: Addr, owner: Name, p: Property, v: Value, prev: seq<Cell>) {
    && Unkeyed(s, p) && v.Values? && (forall k :: 0 <= k < |prev| ==> prev[k].CLink?)
    && forall k {:trigger ElementInPlace(s, a, owner, p, v.elems[k], RowOf(prev, k))} :: 0 <= k < |v.elems| ==>
         ElementInPlace(s, a, owner, p, v.elems[k], RowOf(prev, k))
  }

  ghost function HalfwayStates(s: Schema, a: Addr, owner: Name, p: Property, prev: seq<Cell>, i: nat): iset<State> {
    iset y: State |
      && ListColumn(s, y, a) && p == s[a.t].props[a.c] && NameAt(s, y, a.t, a.r) == owner
      && |Items(y, a)| == (if i < |prev| then |prev| else i)
      && forall j {:trigger Items(y, a)[j]} :: 0 <= j < |Items(y, a)| ==> Items(y, a)[j] == CLink(RowOf(prev, j))
  }

  /** Every position links to the row for its element, with `i` elements placed. */
  ghost predicate Halfway(s: Schema, y: State, a: Addr, owner: Name, p: Property, prev: seq<Cell>, i: nat) {
    y in HalfwayStates(s, a, owner, p, prev, i)
  }

  /** The state after element `i` has been written into its row. */
  function Written(s: Schema, y: State, p: Property, v: Value, prev: seq<Cell>, i: nat): Res<nat>
    requires ValidProperty(|s|, p) && p.ty.base == Object && v.Values? && i < |v.elems|
  {
    Create(s, y, p.target, v.elems[i], UpdateModified, Some(RowOf(prev, i)), true)
  }

  lemma PlaceHalfway(s: Schema, y: State, a: Addr, owner: Name, p: Property, v: Value, prev: seq<Cell>, i: nat)
    requires InPlace(s, a, owner, p, v, prev) && Halfway(s, y, a, owner, p, prev, i) && i < |v.elems|
    requires Place(s, y, a, p, v.elems[i], i, |prev|, true).Ok?
    ensures var l := Place(s, y, a, p, v.elems[i], i, |prev|, true); var w := Written(s, y, p, v, prev, i);
      && w.Ok? && Halfway(s, w.st, a, owner, p, prev, i)
      && l.st == (if i < |prev| then w.st else Do(w.st, a, AddItem(CLink(0))))
      && Halfway(s, l.st, a, owner, p, prev, i + 1)
  {
    var e, r := v.elems[i], RowOf(prev, i);
    assert ElementInPlace(s, a, owner, p, e, r);
    var w := Written(s, y, p, v, prev, i);
    var cur := if i < |prev| then LinkedRow(Items(y, a)[i]) else Some(0);
    assert cur == Some(r);
    var u := UnboxItem(s, y, p, e, UpdateModified, cur, true);
    PlaceIs(s, y, a, p, e, i, |prev|, true);
    assert u.Ok? && w.Ok? && u == Ok(w.st, CLink(w.val));
    CreateInPlace(s, y, p.target, e, r);
    Unchanged(s, y, w.st, FieldNames(s, p.target, e, true, 0), Own(p.target, r, 0, |s[p.target].props|), a);
    if i >= |prev| {
      AppendHalfway(s, w.st, a, owner, p, prev, i);
    }
  }

  lemma AppendHalfway(s: Schema, y: State, a: Addr, owner: Name, p: Property, prev: seq<Cell>, i: nat)
    requires Halfway(s, y, a, owner, p, prev, i) && i >= |prev|
    ensures Halfway(s, Do(y, a, AddItem(CLink(0))), a, owner, p, prev, i + 1)
  {
    DoFrame(s, y, a, AddItem(CLink(0)));
    DoWf(s, y, a, AddItem(CLink(0)));
    assert NameAt(s, Do(y, a, AddItem(CLink(0))), a.t, a.r) == owner;
  }

  /** The list that results: every element is at its position, in its row. */
  lemma {:induction false} InPlaceItems(s: Schema, y: State, a: Addr, owner: Name, p: Property, v: Value, prev: seq<Cell>, i: nat)
    requires InPlace(s, a, owner, p, v, prev) && Halfway(s, y, a, owner, p, prev, i) && i <= |v.elems|
    requires AssignInPlace(s, y, a, p, v, i, |prev|, true).Ok?
    ensures var items := Items(AssignInPlace(s, y, a, p, v, i, |prev|, true).st, a);
      |items| == |v.elems| && forall j :: 0 <= j < |items| ==> items[j] == CLink(RowOf(prev, j))
    decreases |v.elems| - i
  {
    if i == |v.elems| {
      TrimSpec(y, a, i, |prev|);
    } else {
      PlaceHalfway(s, y, a, owner, p, v, prev, i);
      InPlaceItems(s, Place(s, y, a, p, v.elems[i], i, |prev|, true).st, a, owner, p, v, prev, i + 1);
    }
  }

  ghost predicate Unrelated(s: Schema, p: Property, v: Value, prev: seq<Cell>, k: nat, j: nat)
    requires Unkeyed(s, p) && v.Values? && j < |v.elems| && k < |v.elems|
  {
    RowOf(prev, k) != RowOf(prev, j) && Distinct(s, FieldNames(s, p.target, v.elems[k], true, 0), FieldNames(s, p.target, v.elems[j], true, 0))
  }

  /** Element `j` shares neither its row nor nested objects with another element. */
  ghost predicate Alone(s: Schema, p: Property, v: Value, prev: seq<Cell>, j: nat)
    requires Unkeyed(s, p) && v.Values? && j < |v.elems|
  {
    forall k {:trigger Unrelated(s, p, v, prev, k, j)} :: 0 <= k < |v.elems| && k != j ==> Unrelated(s, p, v, prev, k, j)
  }

  ghost function TurnStates(s: Schema, x: State, p: Property, v: Value, prev: seq<Cell>, i: nat, j: nat): iset<State>
    requires Unkeyed(s, p) && v.Values? && j < |v.elems|
  {
    iset y: State |
      && RowOf(prev, j) < Count(y, p.target)
      && SameKeyless(s, x, y)
      && (i <= j ==> Awaits(s, x, y, p.target, RowOf(prev, j), v.elems[j]))
      && (i > j ==> ShowsRow(s, x, y, p.target, RowOf(prev, j), false, v.elems[j]))
  }

  /** Before its turn an element waits, afterwards its row shows it. */
  ghost predicate Turn(s: Schema, x: State, y: State, p: Property, v: Value, prev: seq<Cell>, i: nat, j: nat)
    requires Unkeyed(s, p) && v.Values? && j < |v.elems|
  {
    y in TurnStates(s, x, p, v, prev, i, j)
  }

  /** A step that writes neither the row of element `j` nor what is nested in it. */
  lemma TurnOn(s: Schema, x: State, y: State, z: State, p: Property, v: Value, prev: seq<Cell>, i: nat, j: nat, m: set<Name>, o: Own)
    requires Wf(s, y) && Unkeyed(s, p) && v.Values? && j < |v.elems| && Turn(s, x, y, p, v, prev, i, j)
    requires Frame(s, y, z, m, o) && AllKeyed(s, m) && !(o.t == p.target && o.r == RowOf(prev, j))
    requires Distinct(s, m, FieldNames(s, p.target, v.elems[j], true, 0))
    requires o.lo < o.hi ==> o.t < |s| && Foreign(s, y, o.t, o.r, FieldNames(s, p.target, v.elems[j], true, 0))
    ensures Turn(s, x, z, p, v, prev, i, j)
  {
    KeyedStep(s, y, z, m, o);
    if i <= j {
      AwaitsOn(s, x, y, z, p.target, RowOf(prev, j), v.elems[j], m, o);
    } else {
      RowShowsOn(s, x, y, z, p.target, RowOf(prev, j), v.elems[j], m, o);
    }
  }

  lemma WriteTurn(s: Schema, x: State, y: State, a: Addr, owner: Name, p: Property, v: Value, prev: seq<Cell>, i: nat, j: nat)
    requires InPlace(s, a, owner, p, v, prev) && Wf(s, y) && i < |v.elems| && j < |v.elems|
    requires Alone(s, p, v, prev, j) && Turn(s, x, y, p, v, prev, i, j) && Written(s, y, p, v, prev, i).Ok?
    ensures Turn(s, x, Written(s, y, p, v, prev, i).st, p, v, prev, i + 1, j)
  {
    var e, r := v.elems[i], RowOf(prev, i);
    var z := Written(s, y, p, v, prev, i).st;
    var names, o := FieldNames(s, p.target, e, true, 0), Own(p.target, r, 0, |s[p.target].props|);
    assert ElementInPlace(s, a, owner, p, e, r);
    CreateInPlace(s, y, p.target, e, r);
    FieldNamesKeyed(s, p.target, e, true, 0);
    if i == j {
      KeyedStep(s, y, z, names, o);
      RebaseRow(s, x, y, z, p.target, r, e);
    } else {
      assert Unrelated(s, p, v, prev, i, j);
      TurnOn(s, x, y, z, p, v, prev, i, j, names, o);
    }
  }

  /** Editing the list itself. */
  lemma ListTurn(s: Schema, x: State, y: State, z: State, a: Addr, owner: Name, p: Property, v: Value, prev: seq<Cell>, i: nat, n: nat, j: nat)
    requires InPlace(s, a, owner, p, v, prev) && Halfway(s, y, a, owner, p, prev, i) && j < |v.elems|
    requires Turn(s, x, y, p, v, prev, n, j) && Frame(s, y, z, {}, OwnCell(a))
    ensures Turn(s, x, z, p, v, prev, n, j)
  {
    assert ElementInPlace(s, a, owner, p, v.elems[j], RowOf(prev, j));
    TurnOn(s, x, y, z, p, v, prev, n, j, {}, OwnCell(a));
  }

  lemma PlaceTurn(s: Schema, x: State, y: State, a: Addr, owner: Name, p: Property, v: Value, prev: seq<Cell>, i: nat, j: nat)
    requires InPlace(s, a, owner, p, v, prev) && Halfway(s, y, a, owner, p, prev, i) && i < |v.elems| && j < |v.elems|
    requires Alone(s, p, v, prev, j) && Turn(s, x, y, p, v, prev, i, j) && Place(s, y, a, p, v.elems[i], i, |prev|, true).Ok?
    ensures var z := Place(s, y, a, p, v.elems[i], i, |prev|, true).st;
      Halfway(s, z, a, owner, p, prev, i + 1) && Turn(s, x, z, p, v, prev, i + 1, j)
  {
    var w := Written(s, y, p, v, prev, i);
    PlaceHalfway(s, y, a, owner, p, v, prev, i);
    WriteTurn(s, x, y, a, owner, p, v, prev, i, j);
    if i >= |prev| {
      AppendTurn(s, x, w.st, a, owner, p, v, prev, i, j);
    }
  }

  lemma AppendTurn(s: Schema, x: State, y: State, a: Addr, owner: Name, p: Property, v: Value, prev: seq<Cell>, i: nat, j: nat)
    requires InPlace(s, a, owner, p, v, prev) && Halfway(s, y, a, owner, p, prev, i) && j < |v.elems| && Turn(s, x, y, p, v, prev, i + 1, j)
    ensures Turn(s, x, Do(y, a, AddItem(CLink(0))), p, v, prev, i + 1, j)
  {
    DoFrame(s, y, a, AddItem(CLink(0)));
    ListTurn(s, x, y, Do(y, a, AddItem(CLink(0))), a, owner, p, v, prev, i, i + 1, j);
  }

  /** Each element's row shows it at the end, if no other element is written there. */
  lemma {:induction false} InPlaceShows(s: Schema, x: State, y: State, a: Addr, owner: Name, p: Property, v: Value, prev: seq<Cell>, i: nat, j: nat)
    requires InPlace(s, a, owner, p, v, prev) && Halfway(s, y, a, owner, p, prev, i) && i <= |v.elems| && j < |v.elems|
    requires Alone(s, p, v, prev, j) && Turn(s, x, y, p, v, prev, i, j) && AssignInPlace(s, y, a, p, v, i, |prev|, true).Ok?
    ensures Turn(s, x, AssignInPlace(s, y, a, p, v, i, |prev|, true).st, p, v, prev, |v.elems|, j)
    decreases |v.elems| - i
  {
    if i == |v.elems| {
      TrimFrame(s, y, a, i, |prev|);
      ListTurn(s, x, y, Trim(y, a, i, |prev|).st, a, owner, p, v, prev, i, i, j);
    } else {
      var z := Place(s, y, a, p, v.elems[i], i, |prev|, true).st;
      PlaceTurn(s, x, y, a, owner, p, v, prev, i, j);
      assert AssignInPlace(s, y, a, p, v, i, |prev|, true) == AssignInPlace(s, z, a, p, v, i + 1, |prev|, true);
      InPlaceShows(s, x, z, a, owner, p, v, prev, i + 1, j);
    }
  }

  /** After a list of objects without a key has been assigned with `UpdateModified`, each of
      the common positions links to the row it linked to before, and each position beyond the
      old end to row 0. A row that only one element was written into shows that element. */
  lemma ListInPlace(s: Schema, x: State, t: nat, row: nat, c: nat, v: Value, j: nat)
    requires Wf(s, x) && t < |s| && row < Count(x, t) && c < |s[t].props| && s[t].pk != Some(c)
    requires s[t].props[c].ty.list && InPlace(s, Addr(t, row, c), NameAt(s, x, t, row), s[t].props[c], v, Items(x, Addr(t, row, c)))
    requires SetPropertyValue(s, x, t, row, c, v, UpdateModified).Ok? && j < |v.elems| && RowOf(Items(x, Addr(t, row, c)), j) < Count(x, s[t].props[c].target)
    ensures var p := s[t].props[c]; var prev := Items(x, Addr(t, row, c));
      var y := SetPropertyValue(s, x, t, row, c, v, UpdateModified).st; var items := Items(y, Addr(t, row, c));
      && |items| == |v.elems| && items[j] == CLink(RowOf(prev, j))
      && (Alone(s, p, v, prev, j) ==> ShowsRow(s, x, y, p.target, RowOf(prev, j), false, v.elems[j]))
  {
    var p := s[t].props[c];
    var a := Addr(t, row, c);
    var prev := Items(x, a);
    var owner := NameAt(s, x, t, row);
    assert a in x.cells && prev[..] == prev;
    assert Halfway(s, x, a, owner, p, prev, 0);
    assert SetPropertyValue(s, x, t, row, c, v, UpdateModified) == SetProp(s, x, t, row, c, v, UpdateModified, false, true);
    assert SetProp(s, x, t, row, c, v, UpdateModified, false, true) == Assign(s, x, a, p, v, UpdateModified, true);
    InPlaceItems(s, x, a, owner, p, v, prev, 0);
    if Alone(s, p, v, prev, j) {
      SteadyRefl(s, x, FieldNames(s, p.target, v.elems[j], true, 0));
      InPlaceShows(s, x, x, a, owner, p, v, prev, 0, j);
    }
  }

  /** With `UpdateModified`, a link to an object without a key keeps leading to the row it led
      to, which then shows the object; without a link before, it leads to a new row. */
  lemma LinkInPlace(s: Schema, x: State, t: nat, row: nat, c: nat, v: Value)
    requires Wf(s, x) && t < |s| && c < |s[t].props| && Unkeyed(s, s[t].props[c]) && !s[t].props[c].ty.list && v.Unmanaged?
    requires SetPropertyValue(s, x, t, row, c, v, UpdateModified).Ok? && FieldsFresh(s, s[t].props[c].target, v, true, NoRepeats, 0)
    requires NameAt(s, x, t, row) !in FieldNames(s, s[t].props[c].target, v, true, 0)
    requires t == s[t].props[c].target ==> LinkedRow(Get(x, Addr(t, row, c))) != Some(row)
    ensures var u := s[t].props[c].target; var before := LinkedRow(Get(x, Addr(t, row, c)));
      var y := SetPropertyValue(s, x, t, row, c, v, UpdateModified).st;
      var r := if before.Some? then before.value else Count(x, u);
      Get(y, Addr(t, row, c)) == CLink(r) && ShowsRow(s, x, y, u, r, before.None?, v)
  {
    var p := s[t].props[c];
    var a := Addr(t, row, c);
    var cur := LinkedRow(Get(x, a));
    var w := Create(s, x, p.target, v, UpdateModified, cur, true);
    LinkUpdate(s, x, t, row, c, v);
    LinkTarget(s, x, p.target, v, cur);
    LinkCellKept(s, x, a, p, v, cur);
    LinkRowShows(s, x, p.target, v, cur);
    LinkShows(s, x, w.st, SetPropertyValue(s, x, t, row, c, v, UpdateModified).st, a, p.target, w.val, cur.None?, v, CLink(w.val));
  }

  lemma LinkRowShows(s: Schema, x: State, t: nat, v: Value, cur: Option<nat>)
    requires Wf(s, x) && t < |s| && s[t].pk.None? && FieldsFresh(s, t, v, true, NoRepeats, 0)
    requires Create(s, x, t, v, UpdateModified, cur, true).Ok?
    ensures var w := Create(s, x, t, v, UpdateModified, cur, true); ShowsRow(s, x, w.st, t, w.val, cur.None?, v)
  {
    var w := Create(s, x, t, v, UpdateModified, cur, true);
    FieldNamesKeyed(s, t, v, true, 0);
    assert Fresh(s, t, v, true, NoRepeats);
    LinkTarget(s, x, t, v, cur);
    forall c | 0 <= c < |s[t].props| ensures ShowsField(s, x, w.st, t, w.val, cur.None?, v, true, c) {
      CreateReads(s, x, t, v, UpdateModified, cur, c);
    }
  }

  /** A link is updated by creating the object and writing its row back. */
  lemma LinkUpdate(s: Schema, x: State, t: nat, row: nat, c: nat, v: Value)
    requires t < |s| && c < |s[t].props| && Unkeyed(s, s[t].props[c]) && !s[t].props[c].ty.list && v.Unmanaged?
    requires SetPropertyValue(s, x, t, row, c, v, UpdateModified).Ok?
    ensures var a := Addr(t, row, c); var w := Create(s, x, s[t].props[c].target, v, UpdateModified, LinkedRow(Get(x, a)), true);
      w.Ok? && SetPropertyValue(s, x, t, row, c, v, UpdateModified).st == WriteBack(w.st, a, Get(x, a), CLink(w.val), UpdateModified)
  {
    var a := Addr(t, row, c);
    assert SetPropertyValue(s, x, t, row, c, v, UpdateModified) == Update(s, x, a, s[t].props[c], v, UpdateModified, true);
    assert UnboxItem(s, x, s[t].props[c], v, UpdateModified, LinkedRow(Get(x, a)), true).Ok?;
  }

  lemma LinkTarget(s: Schema, x: State, t: nat, v: Value, cur: Option<nat>)
    requires Wf(s, x) && t < |s| && s[t].pk.None? && Create(s, x, t, v, UpdateModified, cur, true).Ok?
    ensures var w := Create(s, x, t, v, UpdateModified, cur, true);
      w.val == (if cur.Some? then cur.value else Count(x, t)) && (Count(x, t) <= w.val <==> cur.None?) && w.val < Count(w.st, t)
  {
    var l := Locate(s, x, t, v, UpdateModified, cur);
    LocateFrame(s, x, t, v, UpdateModified, cur);
    PopulateFrame(s, l.st, t, l.val, v, UpdateModified, true, 0);
  }

  /** The link itself is not touched while the object is created. */
  lemma LinkCellKept(s: Schema, x: State, a: Addr, p: Property, v: Value, cur: Option<nat>)
    requires Wf(s, x) && a in x.cells && Unkeyed(s, p) && v.Unmanaged? && FieldsFresh(s, p.target, v, true, NoRepeats, 0)
    requires NameAt(s, x, a.t, a.r) !in FieldNames(s, p.target, v, true, 0) && Create(s, x, p.target, v, UpdateModified, cur, true).Ok?
    requires a.t == p.target ==> cur != Some(a.r)
    ensures var z := Create(s, x, p.target, v, UpdateModified, cur, true).st;
      Wf(s, z) && a in z.cells && Get(z, a) == Get(x, a) && NameAt(s, z, a.t, a.r) == NameAt(s, x, a.t, a.r)
  {
    var l := Locate(s, x, p.target, v, UpdateModified, cur);
    LinkLocate(s, x, a, p.target, v, cur);
    PopulateFrame(s, l.st, p.target, l.val, v, UpdateModified, true, 0);
    Unchanged(s, l.st, Populate(s, l.st, p.target, l.val, v, UpdateModified, true, 0).st, FieldNames(s, p.target, v, true, 0),
              Own(p.target, l.val.row, 0, |s[p.target].props|), a);
  }

  lemma LinkLocate(s: Schema, x: State, a: Addr, t: nat, v: Value, cur: Option<nat>)
    requires Wf(s, x) && a in x.cells && t < |s| && s[t].pk.None? && (a.t == t ==> cur != Some(a.r))
    requires Locate(s, x, t, v, UpdateModified, cur).Ok?
    ensures var l := Locate(s, x, t, v, UpdateModified, cur);
      && Wf(s, l.st) && l.val.row < Count(l.st, t) && !(a.t == t && a.r == l.val.row)
      && a in l.st.cells && Get(l.st, a) == Get(x, a) && NameAt(s, l.st, a.t, a.r) == NameAt(s, x, a.t, a.r)
  {
    LocateFrame(s, x, t, v, UpdateModified, cur);
  }

  lemma LinkShows(s: Schema, x: State, z: State, y: State, a: Addr, t: nat, row: nat, created: bool, v: Value, cell: Cell)
    requires Wf(s, z) && a in z.cells && a.r < Count(x, a.t) && s[a.t].pk != Some(a.c) && !s[a.t].props[a.c].ty.list
    requires t < |s| && !(a.t == t && a.r == row) && Foreign(s, z, a.t, a.r, FieldNames(s, t, v, true, 0))
    requires ShowsRow(s, x, z, t, row, created, v) && (y == z || y == Do(z, a, SetTo(cell)))
    ensures ShowsRow(s, x, y, t, row, created, v)
  {
    var names := FieldNames(s, t, v, true, 0);
    if y == z {
      SteadyRefl(s, x, names);
      RebaseBetween(s, x, x, z, names);
    } else {
      LinkBetween(s, x, z, a, cell, names);
    }
    forall c | 0 <= c < |s[t].props| ensures ShowsField(s, x, y, t, row, created, v, true, c) {
      assert ShowsField(s, x, z, t, row, created, v, true, c);
      NamesAtWithin(s, t, v, true, 0, c);
      FieldStable(s, x, x, z, y, t, row, created, v, true, c, names);
    }
  }

  lemma LinkBetween(s: Schema, x: State, z: State, a: Addr, cell: Cell, names: set<Name>)
    requires Wf(s, z) && a in z.cells && a.r < Count(x, a.t) && s[a.t].pk != Some(a.c) && !s[a.t].props[a.c].ty.list
    requires Foreign(s, z, a.t, a.r, names)
    ensures Between(s, x, x, z, Do(z, a, SetTo(cell)), names)
  {
    DoFrame(s, z, a, SetTo(cell));
    EditRest(s, z, a, SetTo(cell));
    StepBetween(s, x, z, Do(z, a, SetTo(cell)), {}, OwnCell(a), names);
  }

  // ----- when writing in place succeeds

  /** Each element from `i` on can be written into its row. */
  ghost predicate InPlaceAccepted(s: Schema, x: State, k: State, p: Property, v: Value, prev: seq<Cell>, i: nat)
    requires Unkeyed(s, p) && v.Values?
  {
    forall j {:trigger ElementAccepted(s, x, k, p, v, prev, j)} :: i <= j < |v.elems| ==> ElementAccepted(s, x, k, p, v, prev, j)
  }

  ghost predicate ElementAccepted(s: Schema, x: State, k: State, p: Property, v: Value, prev: seq<Cell>, j: nat)
    requires Unkeyed(s, p) && v.Values? && j < |v.elems|
  {
    Accepts(s, x, k, p.target, v.elems[j], false, Some(RowOf(prev, j)), true)
  }

  lemma WrittenMeets(s: Schema, x: State, y: State, k: State, a: Addr, owner: Name, p: Property, v: Value, prev: seq<Cell>, i: nat)
    requires InPlace(s, a, owner, p, v, prev) && Wf(s, y) && i < |v.elems| && ItemsFresh(s, p, v, true, NoRepeatedKeys, i)
    requires Rowwise(s, x, y, ItemNames(s, p, v, true, i)) && Count(x, p.target) == Count(y, p.target) && Bounds(Written(s, y, p, v, prev, i), k)
    ensures Written(s, y, p, v, prev, i).Ok? <==> Accepts(s, x, k, p.target, v.elems[i], false, Some(RowOf(prev, i)), true)
  {
    var e := v.elems[i];
    assert ElementInPlace(s, a, owner, p, e, RowOf(prev, i));
    FieldNamesKeyed(s, p.target, e, true, 0);
    FreshLess(s, p.target, e, true, NoAncestors);
    FreshLess(s, p.target, e, true, NoRepeatedKeys);
    RowwiseLess(s, x, y, ItemNames(s, p, v, true, i), Names(s, p.target, e, true));
    ReuseMeets(s, x, y, k, p.target, e, Some(RowOf(prev, i)));
    AcceptsIff(s, x, k, p.target, e, false, Some(RowOf(prev, i)), true);
  }

  /** Placing an element succeeds exactly if it can be written into its row. */
  lemma PlaceOutcome(s: Schema, y: State, a: Addr, owner: Name, p: Property, v: Value, prev: seq<Cell>, i: nat)
    requires InPlace(s, a, owner, p, v, prev) && Halfway(s, y, a, owner, p, prev, i) && i < |v.elems|
    ensures var l := Place(s, y, a, p, v.elems[i], i, |prev|, true); var w := Written(s, y, p, v, prev, i);
      l.Ok? == w.Ok? && l.st.rows == w.st.rows
  {
    var e, r := v.elems[i], RowOf(prev, i);
    assert ElementInPlace(s, a, owner, p, e, r);
    var w := Written(s, y, p, v, prev, i);
    var cur := if i < |prev| then LinkedRow(Items(y, a)[i]) else Some(0);
    assert cur == Some(r);
    var u := UnboxItem(s, y, p, e, UpdateModified, cur, true);
    PlaceIs(s, y, a, p, e, i, |prev|, true);
    assert u.Ok? == w.Ok? && u.st == w.st;
    if w.Ok? {
      CreateInPlace(s, y, p.target, e, r);
      Unchanged(s, y, w.st, FieldNames(s, p.target, e, true, 0), Own(p.target, r, 0, |s[p.target].props|), a);
    }
  }

  lemma PlaceBounds(s: Schema, y: State, k: State, a: Addr, owner: Name, p: Property, v: Value, prev: seq<Cell>, i: nat)
    requires InPlace(s, a, owner, p, v, prev) && Halfway(s, y, a, owner, p, prev, i) && i < |v.elems|
    requires Bounds(AssignInPlace(s, y, a, p, v, i, |prev|, true), k)
    ensures Bounds(Written(s, y, p, v, prev, i), k)
  {
    var l := Place(s, y, a, p, v.elems[i], i, |prev|, true);
    PlaceOutcome(s, y, a, owner, p, v, prev, i);
    PlaceFrame(s, y, a, v.elems[i], i, |prev|, true);
    if l.Ok? {
      AssignInPlaceFrame(s, l.st, a, v, i + 1, |prev|, true);
      assert NoMoreRows(l.st, AssignInPlace(s, l.st, a, p, v, i + 1, |prev|, true).st);
      UptoTrans(l.st, AssignInPlace(s, y, a, p, v, i, |prev|, true).st, k);
    }
    BoundsSame(l, Written(s, y, p, v, prev, i), k);
  }

  lemma PlaceRowwise(s: Schema, x: State, y: State, a: Addr, owner: Name, p: Property, v: Value, prev: seq<Cell>, i: nat)
    requires InPlace(s, a, owner, p, v, prev) && Halfway(s, y, a, owner, p, prev, i) && i < |v.elems|
    requires ItemsFresh(s, p, v, true, NoRepeatedKeys, i) && Rowwise(s, x, y, ItemNames(s, p, v, true, i))
    requires Count(x, p.target) == Count(y, p.target) && Place(s, y, a, p, v.elems[i], i, |prev|, true).Ok?
    ensures var z := Place(s, y, a, p, v.elems[i], i, |prev|, true).st;
      Rowwise(s, x, z, ItemNames(s, p, v, true, i + 1)) && Count(x, p.target) == Count(z, p.target)
  {
    var e, r := v.elems[i], RowOf(prev, i);
    var z, w := Place(s, y, a, p, e, i, |prev|, true).st, Written(s, y, p, v, prev, i);
    PlaceFrame(s, y, a, e, i, |prev|, true);
    RowwiseStep(s, x, y, z, ElemNames(s, p, e, true), OwnCell(a), ItemNames(s, p, v, true, i), ItemNames(s, p, v, true, i + 1));
    PlaceOutcome(s, y, a, owner, p, v, prev, i);
    assert ElementInPlace(s, a, owner, p, e, r);
    CreateInPlace(s, y, p.target, e, r);
    FieldNamesKeyed(s, p.target, e, true, 0);
    KeyedStep(s, y, w.st, FieldNames(s, p.target, e, true, 0), Own(p.target, r, 0, |s[p.target].props|));
    assert Count(w.st, p.target) == Count(y, p.target);
  }

  ghost function MeetingStates(s: Schema, x: State, k: State, a: Addr, owner: Name, p: Property, v: Value, prev: seq<Cell>, i: nat): iset<State>
    requires Unkeyed(s, p) && v.Values? && i <= |v.elems|
  {
    iset y: State |
      && Halfway(s, y, a, owner, p, prev, i)
      && ItemsFresh(s, p, v, true, NoRepeatedKeys, i) && Rowwise(s, x, y, ItemNames(s, p, v, true, i))
      && Count(x, p.target) == Count(y, p.target) && Bounds(AssignInPlace(s, y, a, p, v, i, |prev|, true), k)
  }

  lemma PlaceMeets(s: Schema, x: State, y: State, k: State, a: Addr, owner: Name, p: Property, v: Value, prev: seq<Cell>, i: nat)
    requires InPlace(s, a, owner, p, v, prev) && i < |v.elems| && y in MeetingStates(s, x, k, a, owner, p, v, prev, i)
    ensures var l := Place(s, y, a, p, v.elems[i], i, |prev|, true);
      && (l.Ok? <==> ElementAccepted(s, x, k, p, v, prev, i))
      && (l.Ok? ==> l.st in MeetingStates(s, x, k, a, owner, p, v, prev, i + 1))
  {
    var l := Place(s, y, a, p, v.elems[i], i, |prev|, true);
    PlaceOutcome(s, y, a, owner, p, v, prev, i);
    PlaceBounds(s, y, k, a, owner, p, v, prev, i);
    WrittenMeets(s, x, y, k, a, owner, p, v, prev, i);
    if l.Ok? {
      PlaceHalfway(s, y, a, owner, p, v, prev, i);
      PlaceRowwise(s, x, y, a, owner, p, v, prev, i);
    }
  }

  lemma {:induction false} InPlaceMeets(s: Schema, x: State, y: State, k: State, a: Addr, owner: Name, p: Property, v: Value, prev: seq<Cell>, i: nat)
    requires InPlace(s, a, owner, p, v, prev) && i <= |v.elems| && y in MeetingStates(s, x, k, a, owner, p, v, prev, i)
    ensures AssignInPlace(s, y, a, p, v, i, |prev|, true).Ok? <==> InPlaceAccepted(s, x, k, p, v, prev, i)
    decreases |v.elems| - i
  {
    if i == |v.elems| {
      TrimMeets(s, x, y, k, a, owner, p, v, prev);
    } else {
      var l := Place(s, y, a, p, v.elems[i], i, |prev|, true);
      PlaceMeets(s, x, y, k, a, owner, p, v, prev, i);
      if l.Ok? {
        assert AssignInPlace(s, y, a, p, v, i, |prev|, true) == AssignInPlace(s, l.st, a, p, v, i + 1, |prev|, true);
        InPlaceMeets(s, x, l.st, k, a, owner, p, v, prev, i + 1);
      } else {
        assert AssignInPlace(s, y, a, p, v, i, |prev|, true).Err?;
      }
      AcceptedStep(s, x, k, p, v, prev, i);
    }
  }

  lemma AcceptedStep(s: Schema, x: State, k: State, p: Property, v: Value, prev: seq<Cell>, i: nat)
    requires Unkeyed(s, p) && v.Values? && i < |v.elems|
    ensures InPlaceAccepted(s, x, k, p, v, prev, i) <==> ElementAccepted(s, x, k, p, v, prev, i) && InPlaceAccepted(s, x, k, p, v, prev, i + 1)
  {
    if ElementAccepted(s, x, k, p, v, prev, i) && InPlaceAccepted(s, x, k, p, v, prev, i + 1) {
      forall j | i <= j < |v.elems| ensures ElementAccepted(s, x, k, p, v, prev, j) {
      }
    }
  }

  lemma TrimMeets(s: Schema, x: State, y: State, k: State, a: Addr, owner: Name, p: Property, v: Value, prev: seq<Cell>)
    requires Unkeyed(s, p) && v.Values? && y in MeetingStates(s, x, k, a, owner, p, v, prev, |v.elems|)
    ensures AssignInPlace(s, y, a, p, v, |v.elems|, |prev|, true).Ok?
  {
    TrimSpec(y, a, |v.elems|, |prev|);
  }

  /** Assigning such a list with `UpdateModified` succeeds if and only if every element can be
      written into its row, which must exist. */
  lemma ListInPlaceSucceeds(s: Schema, x: State, t: nat, row: nat, c: nat, v: Value)
    requires Wf(s, x) && t < |s| && Writable(s, x, t, row, c) && s[t].props[c].ty.list
    requires InPlace(s, Addr(t, row, c), NameAt(s, x, t, row), s[t].props[c], v, Items(x, Addr(t, row, c)))
    requires ItemsFresh(s, s[t].props[c], v, true, NoRepeatedKeys, 0)
    ensures var r := SetPropertyValue(s, x, t, row, c, v, UpdateModified); var prev := Items(x, Addr(t, row, c));
      r.Ok? <==> InPlaceAccepted(s, x, r.st, s[t].props[c], v, prev, 0)
  {
    var p := s[t].props[c];
    var a := Addr(t, row, c);
    var prev := Items(x, a);
    var r := SetPropertyValue(s, x, t, row, c, v, UpdateModified);
    assert a in x.cells;
    assert Halfway(s, x, a, NameAt(s, x, t, row), p, prev, 0);
    assert r == SetProp(s, x, t, row, c, v, UpdateModified, false, true) == Assign(s, x, a, p, v, UpdateModified, true);
    SameRowsBounds(r, r.st);
    RowwiseRefl(s, x, ItemNames(s, p, v, true, 0));
    InPlaceMeets(s, x, x, r.st, a, NameAt(s, x, t, row), p, v, prev, 0);
  }

  /** Setting a link to an object without a key with `UpdateModified` succeeds if and only if
      the object can be written into the linked row, or created if there is no link. */
  lemma LinkInPlaceSucceeds(s: Schema, x: State, t: nat, row: nat, c: nat, v: Value)
    requires Wf(s, x) && t < |s| && Writable(s, x, t, row, c) && Unkeyed(s, s[t].props[c]) && !s[t].props[c].ty.list
    requires v.Unmanaged? && FieldsFresh(s, s[t].props[c].target, v, true, NoRepeats, 0)
    ensures var r := SetPropertyValue(s, x, t, row, c, v, UpdateModified); var cur := LinkedRow(Get(x, Addr(t, row, c)));
      r.Ok? <==> Accepts(s, x, r.st, s[t].props[c].target, v, false, cur, true)
  {
    var p := s[t].props[c];
    var a := Addr(t, row, c);
    var cur := LinkedRow(Get(x, a));
    var r, w := SetPropertyValue(s, x, t, row, c, v, UpdateModified), Create(s, x, p.target, v, UpdateModified, cur, true);
    FieldNamesKeyed(s, p.target, v, true, 0);
    assert Fresh(s, p.target, v, true, NoRepeats);
    LinkSameOutcome(s, x, t, row, c, v);
    CreateOutcome(s, x, p.target, v, UpdateModified, cur);
    AcceptsIff(s, x, w.st, p.target, v, false, cur, true);
    if w.Ok? {
      SameRowsBounds(w, r.st);
      AcceptsMore(s, x, w.st, r.st, p.target, v, false, cur, true);
    }
  }

  lemma LinkSameOutcome(s: Schema, x: State, t: nat, row: nat, c: nat, v: Value)
    requires t < |s| && Writable(s, x, t, row, c) && Unkeyed(s, s[t].props[c]) && !s[t].props[c].ty.list && v.Unmanaged?
    ensures var r := SetPropertyValue(s, x, t, row, c, v, UpdateModified);
      var w := Create(s, x, s[t].props[c].target, v, UpdateModified, LinkedRow(Get(x, Addr(t, row, c))), true);
      r.Ok? == w.Ok? && r.st.rows == w.st.rows && (w.Err? ==> r.st == w.st)
  {
    var p := s[t].props[c];
    var a := Addr(t, row, c);
    var u := UnboxItem(s, x, p, v, UpdateModified, LinkedRow(Get(x, a)), true);
    assert SetPropertyValue(s, x, t, row, c, v, UpdateModified) == Update(s, x, a, p, v, UpdateModified, true);
    assert u.Ok? == Create(s, x, p.target, v, UpdateModified, LinkedRow(Get(x, a)), true).Ok?;
  }
}
