// What a call may touch: the names in a value tree, and the frame of every step.
module Framing {
  import opened Options
  import opened PropertyTypes
  import opened Store
  import opened Engine

  // ----- the objects that a value tree names

  /** An object's identity: its type and its key. */
  datatype Name = Name(t: nat, key: Cell)

  /** The names of an object value and of everything nested in it, defaults included. */
  function Names(s: Schema, t: nat, v: Value, top: bool): set<Name>
    requires t < |s|
    decreases top, v, 2, 0
  {
    if v.Unmanaged? && KeyOf(s, t, v).Good? then
      {Name(t, KeyOf(s, t, v).val)} + FieldNames(s, t, v, top, 0)
    else {}
  }

  /** The names nested in properties `i` and up. */
  function FieldNames(s: Schema, t: nat, v: Value, top: bool, i: nat): set<Name>
    requires t < |s| && i <= |s[t].props|
    decreases top, v, 1, |s[t].props| - i
  {
    if i == |s[t].props| then {}
    else NamesAt(s, t, v, top, i) + FieldNames(s, t, v, top, i + 1)
  }

  function NamesAt(s: Schema, t: nat, v: Value, top: bool, i: nat): set<Name>
    requires t < |s| && i < |s[t].props|
    decreases top, v, 0, 0
  {
    var f := Supplied(s, t, v, i, top);
    if s[t].pk == Some(i) || f.Absent? then {}
    else PropNames(s, s[t].props[i], f.value, SubTop(v, i, top))
  }

  /** The names in a value for a property. */
  function PropNames(s: Schema, p: Property, v: Value, top: bool): set<Name>
    requires ValidProperty(|s|, p)
    decreases top, v, 5, 0
  {
    if p.ty.list then (if v.Values? then ItemNames(s, p, v, top, 0) else {})
    else ElemNames(s, p, v, top)
  }

  /** The names in elements `i` and up of a list value. */
  function ItemNames(s: Schema, p: Property, v: Value, top: bool, i: nat): set<Name>
    requires ValidProperty(|s|, p) && v.Values? && i <= |v.elems|
    decreases top, v, 4, |v.elems| - i
  {
    if i == |v.elems| then {} else ElemNames(s, p, v.elems[i], top) + ItemNames(s, p, v, top, i + 1)
  }

  function ElemNames(s: Schema, p: Property, v: Value, top: bool): set<Name>
    requires ValidProperty(|s|, p)
    decreases top, v, 3, 0
  {
    if p.ty.base == Object then Names(s, p.target, v, top) else {}
  }

  // ----- the frame relation

  function NameAt(s: Schema, st: State, t: nat, r: nat): Name
    requires t < |s|
  {
    Name(t, KeyAt(s, st, t, r))
  }

  /** Some columns of one row. */
  datatype Own = Own(t: nat, r: nat, lo: nat, hi: nat)

  predicate InOwn(a: Addr, o: Own) {
    a.t == o.t && a.r == o.r && o.lo <= a.c < o.hi
  }

  const NOTHING := Own(0, 0, 0, 0)

  /** Rows are only added, and no row ever changes its key. */
  ghost predicate KeysStable(s: Schema, x: State, y: State) {
    && (forall t {:trigger Count(y, t)} :: Count(x, t) <= Count(y, t))
    && (forall t, r {:trigger KeyAt(s, y, t, r)} :: 0 <= t < |s| && 0 <= r < Count(x, t) ==> KeyAt(s, y, t, r) == KeyAt(s, x, t, r))
  }

  /** The keys of added rows differ from those of all rows before them. */
  ghost predicate NewKeysFresh(s: Schema, x: State, y: State) {
    forall t, r, r' :: 0 <= t < |s| && s[t].pk.Some? && Count(x, t) <= r' < Count(y, t) && 0 <= r < r' ==>
      KeyAt(s, y, t, r) != KeyAt(s, y, t, r')
  }

  lemma FreshKeysStayUnique(s: Schema, x: State, y: State)
    requires KeysStable(s, x, y) && NewKeysFresh(s, x, y) && UniqueKeys(s, x)
    ensures UniqueKeys(s, y)
  {
  }

  /** From `x` to `y`, only the columns `o` and rows with a name in `names` were written,
      and only rows with a name in `names` were added. */
  ghost predicate Touches(s: Schema, x: State, y: State, names: set<Name>, o: Own) {
    && (forall a {:trigger Get(y, a)} :: a in x.cells && a.t < |s| && NameAt(s, x, a.t, a.r) !in names && !InOwn(a, o) ==>
          Get(y, a) == Get(x, a))
    && (forall t, r {:trigger NameAt(s, y, t, r)} :: 0 <= t < |s| && Count(x, t) <= r < Count(y, t) ==> NameAt(s, y, t, r) in names)
  }

  /** From `x` to `y`, the log grew, and the new writes of cells stayed within the frame. */
  ghost predicate LogTouches(s: Schema, x: State, y: State, names: set<Name>, o: Own) {
    && x.log <= y.log
    && (forall i {:trigger y.log[i]} :: |x.log| <= i < |y.log| && y.log[i].At? ==>
          var a := y.log[i].a; a.t < |s| && a in y.cells && (NameAt(s, y, a.t, a.r) in names || InOwn(a, o)))
  }

  /** The footprints that contain the step from `x` to `y`. */
  ghost function Footprints(s: Schema, x: State, y: State): iset<(set<Name>, Own)> {
    iset f: (set<Name>, Own) |
      && Wf(s, y)
      && KeysStable(s, x, y)
      && NewKeysFresh(s, x, y)
      && Touches(s, x, y, f.0, f.1)
      && LogTouches(s, x, y, f.0, f.1)
  }

  ghost predicate Frame(s: Schema, x: State, y: State, names: set<Name>, o: Own) {
    (names, o) in Footprints(s, x, y)
  }

  lemma FrameRefl(s: Schema, x: State, names: set<Name>, o: Own)
    requires Wf(s, x)
    ensures Frame(s, x, x, names, o)
  {
  }

  lemma TouchesTrans(s: Schema, x: State, y: State, z: State, m: set<Name>, n: set<Name>, o: Own, q: Own, names: set<Name>, own: Own)
    requires Wf(s, x) && Wf(s, y) && KeysStable(s, x, y) && KeysStable(s, y, z)
    requires Touches(s, x, y, m, o) && Touches(s, y, z, n, q)
    requires Covers(s, y, m, n, o, q, names, own)
    ensures Touches(s, x, z, names, own)
  {
    forall a | a in x.cells && NameAt(s, x, a.t, a.r) !in names && !InOwn(a, own)
      ensures Get(z, a) == Get(x, a)
    {
      assert a in y.cells && NameAt(s, y, a.t, a.r) == NameAt(s, x, a.t, a.r);
      assert !InOwn(a, o) && !InOwn(a, q);
    }
    forall t, r | 0 <= t < |s| && Count(x, t) <= r < Count(z, t)
      ensures NameAt(s, z, t, r) in names
    {
      if r < Count(y, t) {
        assert NameAt(s, y, t, r) in m;
      }
    }
  }

  lemma LogTouchesTrans(s: Schema, x: State, y: State, z: State, m: set<Name>, n: set<Name>, o: Own, q: Own, names: set<Name>, own: Own)
    requires Wf(s, y) && Wf(s, z) && KeysStable(s, y, z)
    requires LogTouches(s, x, y, m, o) && LogTouches(s, y, z, n, q)
    requires Covers(s, y, m, n, o, q, names, own)
    ensures LogTouches(s, x, z, names, own)
  {
    forall i | |x.log| <= i < |z.log| && z.log[i].At?
      ensures var a := z.log[i].a; a.t < |s| && a in z.cells && (NameAt(s, z, a.t, a.r) in names || InOwn(a, own))
    {
      var a := z.log[i].a;
      if i < |y.log| {
        assert y.log[i] == z.log[i];
      }
      assert InOwn(a, o) || InOwn(a, q) ==> InOwn(a, own) || NameAt(s, y, a.t, a.r) in names;
      assert a in y.cells ==> NameAt(s, z, a.t, a.r) == NameAt(s, y, a.t, a.r);
    }
  }

  /** The names and columns of two steps lie within those of a larger one. */
  ghost predicate Covers(s: Schema, y: State, m: set<Name>, n: set<Name>, o: Own, q: Own, names: set<Name>, own: Own) {
    && m <= names
    && n <= names
    && (forall a :: (InOwn(a, o) || InOwn(a, q)) && a.t < |s| ==>
          InOwn(a, own) || (a in y.cells && NameAt(s, y, a.t, a.r) in names))
  }

  lemma FrameTrans(s: Schema, x: State, y: State, z: State, m: set<Name>, n: set<Name>, o: Own, q: Own, names: set<Name>, own: Own)
    requires Wf(s, x) && Frame(s, x, y, m, o) && Frame(s, y, z, n, q)
    requires Covers(s, y, m, n, o, q, names, own)
    ensures Frame(s, x, z, names, own)
  {
    KeysStableTrans(s, x, y, z);
    NewKeysFreshTrans(s, x, y, z);
    TouchesTrans(s, x, y, z, m, n, o, q, names, own);
    LogTouchesTrans(s, x, y, z, m, n, o, q, names, own);
  }

  lemma KeysStableTrans(s: Schema, x: State, y: State, z: State)
    requires KeysStable(s, x, y) && KeysStable(s, y, z)
    ensures KeysStable(s, x, z)
  {
  }

  lemma NewKeysFreshTrans(s: Schema, x: State, y: State, z: State)
    requires KeysStable(s, x, y) && KeysStable(s, y, z) && NewKeysFresh(s, x, y) && NewKeysFresh(s, y, z)
    ensures NewKeysFresh(s, x, z)
  {
  }

  lemma DoWf(s: Schema, x: State, a: Addr, e: Edit)
    requires Wf(s, x) && a in x.cells
    requires s[a.t].props[a.c].ty.list ==> Edited(Get(x, a), e).CList?
    ensures Wf(s, Do(x, a, e))
  {
  }

  /** Editing a cell that exists and is not a key. */
  lemma DoFrame(s: Schema, x: State, a: Addr, e: Edit)
    requires Wf(s, x) && a in x.cells && s[a.t].pk != Some(a.c)
    requires s[a.t].props[a.c].ty.list ==> Edited(Get(x, a), e).CList?
    ensures Frame(s, x, Do(x, a, e), {}, Own(a.t, a.r, a.c, a.c + 1))
  {
    var y := Do(x, a, e);
    forall t, r | 0 <= t < |s|
      ensures KeyAt(s, y, t, r) == KeyAt(s, x, t, r)
    {
    }
  }

  lemma AddRowKeys(s: Schema, x: State, t: nat, init: seq<Cell>)
    requires Wf(s, x) && t < |s| && |init| == |s[t].props|
    ensures KeysStable(s, x, AddRow(x, t, init))
    ensures s[t].pk.Some? ==> KeyAt(s, AddRow(x, t, init), t, Count(x, t)) == init[s[t].pk.value]
  {
    var y := AddRow(x, t, init);
    forall u, r | 0 <= u < |s| && 0 <= r < Count(x, u)
      ensures KeyAt(s, y, u, r) == KeyAt(s, x, u, r)
    {
    }
  }

  lemma AddRowFresh(s: Schema, x: State, t: nat, init: seq<Cell>)
    requires Wf(s, x) && t < |s| && |init| == |s[t].props|
    requires s[t].pk.Some? ==> Find(s, x, t, init[s[t].pk.value]).None?
    ensures NewKeysFresh(s, x, AddRow(x, t, init))
  {
    AddRowKeys(s, x, t, init);
  }

  lemma AddRowWf(s: Schema, x: State, t: nat, init: seq<Cell>)
    requires Wf(s, x) && t < |s| && |init| == |s[t].props|
    requires forall c :: 0 <= c < |init| && s[t].props[c].ty.list ==> init[c].CList?
    ensures Wf(s, AddRow(x, t, init))
  {
  }

  /** Adding a row, under a key that no row has yet when the table is keyed. */
  lemma AddRowFrame(s: Schema, x: State, t: nat, init: seq<Cell>, names: set<Name>)
    requires Wf(s, x) && t < |s| && |init| == |s[t].props|
    requires forall c :: 0 <= c < |init| && s[t].props[c].ty.list ==> init[c].CList?
    requires s[t].pk.Some? ==> Find(s, x, t, init[s[t].pk.value]).None?
    requires Name(t, if s[t].pk.Some? then init[s[t].pk.value] else CNull) in names
    ensures Frame(s, x, AddRow(x, t, init), names, NOTHING)
  {
    AddRowWf(s, x, t, init);
    AddRowKeys(s, x, t, init);
    AddRowFresh(s, x, t, init);
    AddRowTouches(s, x, t, init, names);
  }

  lemma AddRowTouches(s: Schema, x: State, t: nat, init: seq<Cell>, names: set<Name>)
    requires Wf(s, x) && t < |s| && |init| == |s[t].props|
    requires Name(t, if s[t].pk.Some? then init[s[t].pk.value] else CNull) in names
    ensures Touches(s, x, AddRow(x, t, init), names, NOTHING)
    ensures LogTouches(s, x, AddRow(x, t, init), names, NOTHING)
  {
    AddRowKeys(s, x, t, init);
  }
}
