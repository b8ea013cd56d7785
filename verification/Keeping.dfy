// Cells that `create` and property writes leave alone because their policy never overwrites
// them: all that exist under `ForceCreate`, and those of types without a key under `UpdateAll`.
module Keeping {
  import opened Options
  import opened PropertyTypes
  import opened Store
  import opened Engine
  import opened Framing
  import opened FrameProofs
  import opened Policies

  ghost function Extensions(b: State): iset<State> {
    iset x: State |
      && (forall t {:trigger Count(x, t)} :: Count(b, t) <= Count(x, t))
      && (forall a {:trigger a in b.cells} :: a in b.cells ==> a in x.cells && Get(x, a) == Get(b, a))
  }

  /** All of `b` is still there in `x`. */
  ghost predicate Keeps(b: State, x: State) {
    x in Extensions(b)
  }

  ghost function SafeStates(s: Schema, pol: Policy): iset<State> {
    iset b: State | pol != UpdateModified &&
      forall a {:trigger a in b.cells} :: a in b.cells ==> a.t < |s| && a.r < Count(b, a.t) && (pol == ForceCreate || s[a.t].pk.None?)
  }

  /** Cells that the policy does not overwrite: under `ForceCreate` any, under `UpdateAll`
      those of types without a key. */
  ghost predicate Safe(s: Schema, b: State, pol: Policy) {
    b in SafeStates(s, pol)
  }

  ghost function FreeColumns(b: State): iset<Addr> {
    iset a: Addr | forall c {:trigger Addr(a.t, a.r, c)} :: a.c <= c ==> Addr(a.t, a.r, c) !in b.cells
  }

  /** The columns of the row from `i` on may be written without touching `b`. */
  ghost predicate Free(b: State, t: nat, row: nat, i: nat) {
    Addr(t, row, i) in FreeColumns(b)
  }

  lemma FreeNext(b: State, t: nat, row: nat, i: nat)
    requires Free(b, t, row, i)
    ensures Addr(t, row, i) !in b.cells && Free(b, t, row, i + 1)
  {
  }

  lemma DoKeeps(b: State, x: State, a: Addr, e: Edit)
    requires Keeps(b, x) && a !in b.cells
    ensures Keeps(b, Do(x, a, e))
  {
    assert forall t {:trigger Count(Do(x, a, e), t)} :: Count(b, t) <= Count(x, t);
  }

  lemma AddRowKeeps(s: Schema, b: State, x: State, t: nat, init: seq<Cell>)
    requires Wf(s, x) && t < |s| && Keeps(b, x)
    ensures Keeps(b, AddRow(x, t, init))
  {
    var y := AddRow(x, t, init);
    assert forall u {:trigger Count(y, u)} :: Count(b, u) <= Count(x, u);
    forall a | a in b.cells ensures a in y.cells && Get(y, a) == Get(b, a) {
      assert a in x.cells && Get(x, a) == Get(b, a);
    }
  }

  lemma LocateKeeps(s: Schema, b: State, x: State, t: nat, v: Value, pol: Policy, cur: Option<nat>)
    requires Safe(s, b, pol) && Wf(s, x) && t < |s| && Keeps(b, x)
    ensures var l := Locate(s, x, t, v, pol, cur);
      Keeps(b, l.st) && (l.Ok? ==> Free(b, t, l.val.row, 0))
  {
    var init := InitialRow(s[t].props);
    SafeFree(s, b, x, t, pol);
    if s[t].pk.None? {
      AddRowKeeps(s, b, x, t, init);
    } else if KeyOf(s, t, v).Good? {
      AddRowKeeps(s, b, x, t, init[s[t].pk.value := KeyOf(s, t, v).val]);
    }
  }

  /** The next row is free, and under `UpdateAll` so are the rows of a keyed type. */
  lemma SafeFree(s: Schema, b: State, x: State, t: nat, pol: Policy)
    requires Safe(s, b, pol) && t < |s| && Keeps(b, x)
    ensures Free(b, t, Count(x, t), 0)
    ensures pol == UpdateAll && s[t].pk.Some? ==> forall r :: Free(b, t, r, 0)
  {
    assert Count(b, t) <= Count(x, t);
  }

  lemma {:induction false} CreateKeeps(s: Schema, b: State, x: State, t: nat, v: Value, pol: Policy, cur: Option<nat>, top: bool)
    requires Safe(s, b, pol) && Wf(s, x) && t < |s| && Keeps(b, x)
    ensures Keeps(b, Create(s, x, t, v, pol, cur, top).st)
    decreases top, v, 5, 0
  {
    var l := Locate(s, x, t, v, pol, cur);
    LocateKeeps(s, b, x, t, v, pol, cur);
    LocateFrame(s, x, t, v, pol, cur);
    if v.Unmanaged? && l.Ok? {
      PopulateKeeps(s, b, l.st, t, l.val, v, pol, top, 0);
    }
  }

  lemma {:induction false} PopulateKeeps(s: Schema, b: State, x: State, t: nat, slot: Slot, v: Value, pol: Policy, top: bool, i: nat)
    requires Wf(s, x) && t < |s| && i <= |s[t].props| && slot.row < Count(x, t) && Keeps(b, x) && Safe(s, b, pol) && Free(b, t, slot.row, i)
    ensures Keeps(b, Populate(s, x, t, slot, v, pol, top, i).st)
    decreases top, v, 4, |s[t].props| - i
  {
    if i < |s[t].props| {
      var l := PopulateOne(s, x, t, slot, v, pol, top, i);
      PopulateIs(s, x, t, slot, v, pol, top, i);
      PopulateOneKeeps(s, b, x, t, slot, v, pol, top, i);
      FreeNext(b, t, slot.row, i);
      if l.Ok? {
        PopulateKeeps(s, b, l.st, t, slot, v, pol, top, i + 1);
      }
    }
  }

  lemma {:induction false} PopulateOneKeeps(s: Schema, b: State, x: State, t: nat, slot: Slot, v: Value, pol: Policy, top: bool, i: nat)
    requires Wf(s, x) && t < |s| && i < |s[t].props| && slot.row < Count(x, t) && Keeps(b, x) && Safe(s, b, pol) && Free(b, t, slot.row, i)
    ensures var y := PopulateOne(s, x, t, slot, v, pol, top, i).st; Keeps(b, y) && Wf(s, y) && slot.row < Count(y, t)
    decreases top, v, 3, 0
  {
    PopulateOneFrame(s, x, t, slot, v, pol, top, i);
    FreeNext(b, t, slot.row, i);
    var f := Supplied(s, t, v, i, top);
    if s[t].pk != Some(i) && f.Given? {
      SetPropKeeps(s, b, x, t, slot.row, i, f.value, pol, FieldOf(v, i).Absent?, SubTop(v, i, top));
    }
  }

  lemma {:induction false} SetPropKeeps(s: Schema, b: State, x: State, t: nat, row: nat, c: nat, v: Value, pol: Policy, isDefault: bool, top: bool)
    requires Wf(s, x) && t < |s| && c < |s[t].props| && s[t].pk != Some(c) && row < Count(x, t)
    requires Keeps(b, x) && Safe(s, b, pol) && Addr(t, row, c) !in b.cells
    ensures Keeps(b, SetProp(s, x, t, row, c, v, pol, isDefault, top).st)
    decreases top, v, 9, 0
  {
    var p := s[t].props[c];
    var a := Addr(t, row, c);
    assert a in x.cells;
    if p.ty.nullable && v.Null? {
      DoKeeps(b, x, a, SetTo(CNull));
    } else if !p.ty.list {
      UpdateKeeps(s, b, x, a, v, pol, top);
    } else if p.ty.base != LinkingObjects {
      AssignKeeps(s, b, x, a, p, v, pol, top);
    }
  }

  lemma {:induction false} AssignKeeps(s: Schema, b: State, x: State, a: Addr, p: Property, v: Value, pol: Policy, top: bool)
    requires ListColumn(s, x, a) && p == s[a.t].props[a.c] && a !in b.cells && Keeps(b, x) && Safe(s, b, pol)
    ensures Keeps(b, Assign(s, x, a, p, v, pol, top).st)
    decreases top, v, 8, 0
  {
    DoKeeps(b, x, a, ClearItems);
    if v.Values? {
      DoWf(s, x, a, ClearItems);
      RefillKeeps(s, b, Do(x, a, ClearItems), a, p, v, pol, 0, top);
    }
  }

  lemma {:induction false} UpdateKeeps(s: Schema, b: State, x: State, a: Addr, v: Value, pol: Policy, top: bool)
    requires Wf(s, x) && a in x.cells && a !in b.cells && Keeps(b, x) && Safe(s, b, pol)
    ensures Keeps(b, Update(s, x, a, s[a.t].props[a.c], v, pol, top).st)
    decreases top, v, 8, 0
  {
    var p := s[a.t].props[a.c];
    var u := UnboxItem(s, x, p, v, pol, LinkedRow(Get(x, a)), top);
    UnboxItemKeeps(s, b, x, p, v, pol, LinkedRow(Get(x, a)), top);
    if u.Ok? {
      DoKeeps(b, u.st, a, SetTo(u.val));
    }
  }

  lemma {:induction false} UnboxItemKeeps(s: Schema, b: State, x: State, p: Property, v: Value, pol: Policy, cur: Option<nat>, top: bool)
    requires Safe(s, b, pol) && Wf(s, x) && ValidProperty(|s|, p) && Keeps(b, x)
    ensures Keeps(b, UnboxItem(s, x, p, v, pol, cur, top).st)
    decreases top, v, 6, 0
  {
    if p.ty.base == Object && !v.Managed? {
      CreateKeeps(s, b, x, p.target, v, pol, cur, top);
    }
  }

  lemma {:induction false} AddedKeeps(s: Schema, b: State, x: State, a: Addr, p: Property, v: Value, pol: Policy, top: bool)
    requires ListColumn(s, x, a) && p == s[a.t].props[a.c] && a !in b.cells && Keeps(b, x) && Safe(s, b, pol)
    ensures var u := UnboxItem(s, x, p, v, pol, Some(0), top);
      Keeps(b, u.st) && (u.Ok? ==> Keeps(b, Do(u.st, a, AddItem(u.val))) && ListColumn(s, Do(u.st, a, AddItem(u.val)), a))
    decreases top, v, 7, 0
  {
    var u := UnboxItem(s, x, p, v, pol, Some(0), top);
    UnboxItemKeeps(s, b, x, p, v, pol, Some(0), top);
    UnboxItemFrame(s, x, p, v, pol, Some(0), top);
    if u.Ok? {
      DoKeeps(b, u.st, a, AddItem(u.val));
      DoWf(s, u.st, a, AddItem(u.val));
    }
  }

  lemma {:induction false} RefillKeeps(s: Schema, b: State, x: State, a: Addr, p: Property, v: Value, pol: Policy, i: nat, top: bool)
    requires ListColumn(s, x, a) && p == s[a.t].props[a.c] && a !in b.cells && Keeps(b, x) && Safe(s, b, pol) && v.Values? && i <= |v.elems|
    ensures Keeps(b, Refill(s, x, a, p, v, pol, i, top).st)
    decreases top, v, 7, |v.elems| - i
  {
    if i < |v.elems| {
      var u := UnboxItem(s, x, p, v.elems[i], pol, Some(0), top);
      AddedKeeps(s, b, x, a, p, v.elems[i], pol, top);
      if u.Ok? {
        RefillKeeps(s, b, Do(u.st, a, AddItem(u.val)), a, p, v, pol, i + 1, top);
      }
    }
  }

  // ----- types without a key, under `UpdateAll`

  /** The cells of types without a key that lie outside `o`. */
  ghost function Rest(s: Schema, x: State, o: Own): State {
    State(x.rows, map a | a in x.cells && a.t < |s| && s[a.t].pk.None? && !InOwn(a, o) :: x.cells[a], [])
  }

  /** From `x` to `y`, nothing of a type without a key was touched outside `o`. */
  ghost predicate KeepsRest(s: Schema, x: State, y: State, o: Own) {
    Keeps(Rest(s, x, o), y)
  }

  lemma RestSafe(s: Schema, x: State, o: Own)
    requires Wf(s, x)
    ensures Safe(s, Rest(s, x, o), UpdateAll) && KeepsRest(s, x, x, o)
  {
    assert forall t {:trigger Count(x, t)} :: Count(Rest(s, x, o), t) <= Count(x, t);
  }

  lemma UnboxItemRest(s: Schema, x: State, p: Property, v: Value, cur: Option<nat>, top: bool)
    requires Wf(s, x) && ValidProperty(|s|, p)
    ensures KeepsRest(s, x, UnboxItem(s, x, p, v, UpdateAll, cur, top).st, NOTHING)
  {
    RestSafe(s, x, NOTHING);
    UnboxItemKeeps(s, Rest(s, x, NOTHING), x, p, v, UpdateAll, cur, top);
  }

  lemma RestFree(s: Schema, x: State, t: nat, row: nat, i: nat)
    requires Wf(s, x) && t < |s|
    ensures Free(Rest(s, x, Own(t, row, i, |s[t].props|)), t, row, i)
  {
    forall c | i <= c ensures Addr(t, row, c) !in Rest(s, x, Own(t, row, i, |s[t].props|)).cells {
      assert Addr(t, row, c) in x.cells ==> c < |s[t].props|;
    }
  }

  lemma PopulateKeepsRest(s: Schema, x: State, t: nat, slot: Slot, v: Value, top: bool, i: nat)
    requires Wf(s, x) && t < |s| && i <= |s[t].props| && slot.row < Count(x, t)
    ensures KeepsRest(s, x, Populate(s, x, t, slot, v, UpdateAll, top, i).st, Own(t, slot.row, i, |s[t].props|))
  {
    var o := Own(t, slot.row, i, |s[t].props|);
    RestSafe(s, x, o);
    RestFree(s, x, t, slot.row, i);
    PopulateKeeps(s, Rest(s, x, o), x, t, slot, v, UpdateAll, top, i);
  }

  lemma SetPropRest(s: Schema, x: State, t: nat, row: nat, c: nat, v: Value, isDefault: bool, top: bool)
    requires Wf(s, x) && t < |s| && c < |s[t].props| && s[t].pk != Some(c) && row < Count(x, t)
    ensures KeepsRest(s, x, SetProp(s, x, t, row, c, v, UpdateAll, isDefault, top).st, Own(t, row, c, c + 1))
  {
    RestSafe(s, x, Own(t, row, c, c + 1));
    SetPropKeeps(s, Rest(s, x, Own(t, row, c, c + 1)), x, t, row, c, v, UpdateAll, isDefault, top);
  }

  lemma PopulateOneRest(s: Schema, x: State, t: nat, slot: Slot, v: Value, top: bool, i: nat)
    requires Wf(s, x) && t < |s| && i < |s[t].props| && slot.row < Count(x, t)
    ensures KeepsRest(s, x, PopulateOne(s, x, t, slot, v, UpdateAll, top, i).st, Own(t, slot.row, i, i + 1))
  {
    var f := Supplied(s, t, v, i, top);
    RestSafe(s, x, Own(t, slot.row, i, i + 1));
    if s[t].pk != Some(i) && f.Given? {
      SetPropRest(s, x, t, slot.row, i, f.value, FieldOf(v, i).Absent?, SubTop(v, i, top));
    }
  }

  lemma RefillRest(s: Schema, x: State, a: Addr, v: Value, i: nat, top: bool)
    requires ListColumn(s, x, a) && v.Values? && i <= |v.elems|
    ensures KeepsRest(s, x, Refill(s, x, a, s[a.t].props[a.c], v, UpdateAll, i, top).st, OwnCell(a))
  {
    RestSafe(s, x, OwnCell(a));
    RefillKeeps(s, Rest(s, x, OwnCell(a)), x, a, s[a.t].props[a.c], v, UpdateAll, i, top);
  }

  lemma EditRest(s: Schema, x: State, a: Addr, e: Edit)
    requires Wf(s, x)
    ensures KeepsRest(s, x, Do(x, a, e), OwnCell(a))
  {
    RestSafe(s, x, OwnCell(a));
    DoKeeps(Rest(s, x, OwnCell(a)), x, a, e);
  }

  lemma RestKept(s: Schema, x: State, y: State, o: Own, a: Addr)
    requires KeepsRest(s, x, y, o) && a in x.cells && a.t < |s| && s[a.t].pk.None? && !InOwn(a, o)
    ensures Get(y, a) == Get(x, a)
  {
    assert a in Rest(s, x, o).cells;
  }
}
