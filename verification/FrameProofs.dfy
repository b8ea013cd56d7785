// Every function of the engine stays within the frame of the names in its value,
// keeps keys unique and never changes one, under every policy and for every outcome.
module FrameProofs {
  import opened Options
  import opened PropertyTypes
  import opened Store
  import opened Engine
  import opened Framing

  function OwnCell(a: Addr): Own {
    Own(a.t, a.r, a.c, a.c + 1)
  }

  lemma Grow(s: Schema, x: State, y: State, m: set<Name>, o: Own, names: set<Name>, own: Own)
    requires Wf(s, x) && Frame(s, x, y, m, o) && m <= names
    requires forall a :: InOwn(a, o) ==> InOwn(a, own)
    ensures Frame(s, x, y, names, own)
  {
  }

  lemma Then(s: Schema, x: State, y: State, z: State, m: set<Name>, n: set<Name>, o: Own, q: Own, names: set<Name>, own: Own)
    requires Wf(s, x) && Frame(s, x, y, m, o) && Frame(s, y, z, n, q)
    requires m <= names && n <= names
    requires forall a :: InOwn(a, o) || InOwn(a, q) ==> InOwn(a, own)
    ensures Frame(s, x, z, names, own)
  {
    FrameTrans(s, x, y, z, m, n, o, q, names, own);
  }

  lemma ThenEdit(s: Schema, x: State, y: State, a: Addr, e: Edit, m: set<Name>)
    requires Wf(s, x) && Frame(s, x, y, m, NOTHING)
    requires a in x.cells && s[a.t].pk != Some(a.c)
    requires s[a.t].props[a.c].ty.list ==> Edited(Get(y, a), e).CList?
    ensures Frame(s, x, Do(y, a, e), m, OwnCell(a))
  {
    assert a in y.cells;
    DoFrame(s, y, a, e);
    Then(s, x, y, Do(y, a, e), m, {}, NOTHING, OwnCell(a), m, OwnCell(a));
  }

  /** The row that `create` works on exists and has the key of the value. */
  ghost predicate Located(s: Schema, y: State, t: nat, v: Value, row: nat)
    requires t < |s|
  {
    && row < Count(y, t)
    && KeyOf(s, t, v).Good? && KeyAt(s, y, t, row) == KeyOf(s, t, v).val
  }

  lemma LocateFrame(s: Schema, x: State, t: nat, v: Value, pol: Policy, cur: Option<nat>)
    requires Wf(s, x) && t < |s|
    ensures var r := Locate(s, x, t, v, pol, cur);
      && Frame(s, x, r.st, if KeyOf(s, t, v).Good? then {Name(t, KeyOf(s, t, v).val)} else {}, NOTHING)
      && (r.Ok? ==> Located(s, r.st, t, v, r.val.row))
  {
    var r := Locate(s, x, t, v, pol, cur);
    var names := if KeyOf(s, t, v).Good? then {Name(t, KeyOf(s, t, v).val)} else {};
    if r.Ok? && r.val.created {
      var init := InitialRow(s[t].props);
      if s[t].pk.Some? {
        init := init[s[t].pk.value := KeyOf(s, t, v).val];
      }
      AddRowFrame(s, x, t, init, names);
      AddRowKeys(s, x, t, init);
    } else {
      FrameRefl(s, x, names, NOTHING);
    }
  }

  lemma {:induction false} CreateFrame(s: Schema, x: State, t: nat, v: Value, pol: Policy, cur: Option<nat>, top: bool)
    requires Wf(s, x) && t < |s|
    ensures var r := Create(s, x, t, v, pol, cur, top);
      && Frame(s, x, r.st, Names(s, t, v, top), NOTHING)
      && (r.Ok? ==> Located(s, r.st, t, v, r.val))
    decreases top, v, 5, 0
  {
    var l := Locate(s, x, t, v, pol, cur);
    LocateFrame(s, x, t, v, pol, cur);
    if v.Unmanaged? && l.Ok? {
      PopulateFrame(s, l.st, t, l.val, v, pol, top, 0);
      CreateFrameEnd(s, x, l.st, t, v, top, l.val.row, Populate(s, l.st, t, l.val, v, pol, top, 0).st);
    } else {
      FrameRefl(s, x, Names(s, t, v, top), NOTHING);
    }
  }

  lemma CreateFrameEnd(s: Schema, x: State, y: State, t: nat, v: Value, top: bool, row: nat, z: State)
    requires Wf(s, x) && t < |s| && v.Unmanaged? && Located(s, y, t, v, row)
    requires Frame(s, x, y, if KeyOf(s, t, v).Good? then {Name(t, KeyOf(s, t, v).val)} else {}, NOTHING)
    requires Frame(s, y, z, FieldNames(s, t, v, top, 0), Own(t, row, 0, |s[t].props|))
    ensures Frame(s, x, z, Names(s, t, v, top), NOTHING) && Located(s, z, t, v, row)
  {
    FrameTrans(s, x, y, z, {Name(t, KeyOf(s, t, v).val)}, FieldNames(s, t, v, top, 0),
               NOTHING, Own(t, row, 0, |s[t].props|), Names(s, t, v, top), NOTHING);
  }

  lemma {:induction false} PopulateFrame(s: Schema, x: State, t: nat, slot: Slot, v: Value, pol: Policy, top: bool, i: nat)
    requires Wf(s, x) && t < |s| && i <= |s[t].props| && slot.row < Count(x, t)
    ensures var r := Populate(s, x, t, slot, v, pol, top, i);
      && Frame(s, x, r.st, FieldNames(s, t, v, top, i), Own(t, slot.row, i, |s[t].props|))
      && (r.Ok? ==> r.val == slot.row)
    decreases top, v, 4, |s[t].props| - i
  {
    var n := |s[t].props|;
    if i == n {
      FrameRefl(s, x, FieldNames(s, t, v, top, i), Own(t, slot.row, i, n));
    } else {
      var f := PopulateOne(s, x, t, slot, v, pol, top, i);
      PopulateOneFrame(s, x, t, slot, v, pol, top, i);
      if f.Err? {
        Grow(s, x, f.st, NamesAt(s, t, v, top, i), Own(t, slot.row, i, i + 1),
             FieldNames(s, t, v, top, i), Own(t, slot.row, i, n));
      } else {
        PopulateFrame(s, f.st, t, slot, v, pol, top, i + 1);
        Then(s, x, f.st, Populate(s, f.st, t, slot, v, pol, top, i + 1).st, NamesAt(s, t, v, top, i),
             FieldNames(s, t, v, top, i + 1), Own(t, slot.row, i, i + 1), Own(t, slot.row, i + 1, n),
             FieldNames(s, t, v, top, i), Own(t, slot.row, i, n));
      }
    }
  }

  lemma {:induction false} PopulateOneFrame(s: Schema, x: State, t: nat, slot: Slot, v: Value, pol: Policy, top: bool, i: nat)
    requires Wf(s, x) && t < |s| && i < |s[t].props| && slot.row < Count(x, t)
    ensures Frame(s, x, PopulateOne(s, x, t, slot, v, pol, top, i).st, NamesAt(s, t, v, top, i), Own(t, slot.row, i, i + 1))
    decreases top, v, 3, 0
  {
    var f := Supplied(s, t, v, i, top);
    FrameRefl(s, x, NamesAt(s, t, v, top, i), Own(t, slot.row, i, i + 1));
    if s[t].pk != Some(i) && f.Given? {
      SetPropFrame(s, x, t, slot.row, i, f.value, pol, FieldOf(v, i).Absent?, SubTop(v, i, top));
    }
  }

  lemma {:induction false} SetPropFrame(s: Schema, x: State, t: nat, row: nat, c: nat, v: Value, pol: Policy, isDefault: bool, top: bool)
    requires Wf(s, x) && t < |s| && c < |s[t].props| && s[t].pk != Some(c) && row < Count(x, t)
    ensures Frame(s, x, SetProp(s, x, t, row, c, v, pol, isDefault, top).st,
                  PropNames(s, s[t].props[c], v, top), Own(t, row, c, c + 1))
    decreases top, v, 9, 0
  {
    var a := Addr(t, row, c);
    assert a in x.cells;
    if s[t].props[c].ty.nullable && v.Null? {
      SetNullFrame(s, x, a, pol, isDefault, PropNames(s, s[t].props[c], v, top));
    } else {
      SetValueFrame(s, x, a, s[t].props[c], v, pol, isDefault, top);
    }
  }

  lemma {:induction false} SetValueFrame(s: Schema, x: State, a: Addr, p: Property, v: Value, pol: Policy, isDefault: bool, top: bool)
    requires Wf(s, x) && a in x.cells && s[a.t].pk != Some(a.c) && p == s[a.t].props[a.c] && !(p.ty.nullable && v.Null?)
    ensures Frame(s, x, SetProp(s, x, a.t, a.r, a.c, v, pol, isDefault, top).st, PropNames(s, p, v, top), OwnCell(a))
    decreases top, v, 8, 1
  {
    if !p.ty.list {
      UpdateFrame(s, x, a, v, pol, top);
    } else if p.ty.base == LinkingObjects {
      FrameRefl(s, x, PropNames(s, p, v, top), OwnCell(a));
    } else {
      AssignFrame(s, x, a, v, pol, top);
    }
  }

  lemma SetNullFrame(s: Schema, x: State, a: Addr, pol: Policy, isDefault: bool, names: set<Name>)
    requires Wf(s, x) && a in x.cells && s[a.t].pk != Some(a.c)
    ensures Frame(s, x, SetNull(x, a, s[a.t].props[a.c].ty, pol, isDefault).st, names, OwnCell(a))
  {
    FrameRefl(s, x, names, OwnCell(a));
    if !s[a.t].props[a.c].ty.list {
      DoFrame(s, x, a, SetTo(CNull));
      Grow(s, x, Do(x, a, SetTo(CNull)), {}, OwnCell(a), names, OwnCell(a));
    }
  }

  lemma {:induction false} UpdateFrame(s: Schema, x: State, a: Addr, v: Value, pol: Policy, top: bool)
    requires Wf(s, x) && a in x.cells && s[a.t].pk != Some(a.c) && !s[a.t].props[a.c].ty.list
    ensures var p := s[a.t].props[a.c];
      Frame(s, x, Update(s, x, a, p, v, pol, top).st, ElemNames(s, p, v, top), OwnCell(a))
    decreases top, v, 8, 0
  {
    var p := s[a.t].props[a.c];
    var names := ElemNames(s, p, v, top);
    var u := UnboxItem(s, x, p, v, pol, LinkedRow(Get(x, a)), top);
    UnboxItemFrame(s, x, p, v, pol, LinkedRow(Get(x, a)), top);
    Grow(s, x, u.st, names, NOTHING, names, OwnCell(a));
    if u.Ok? {
      ThenEdit(s, x, u.st, a, SetTo(u.val), names);
    }
  }

  lemma {:induction false} UnboxItemFrame(s: Schema, x: State, p: Property, v: Value, pol: Policy, cur: Option<nat>, top: bool)
    requires Wf(s, x) && ValidProperty(|s|, p)
    ensures Frame(s, x, UnboxItem(s, x, p, v, pol, cur, top).st, ElemNames(s, p, v, top), NOTHING)
    decreases top, v, 6, 0
  {
    FrameRefl(s, x, ElemNames(s, p, v, top), NOTHING);
    if p.ty.base == Object && !v.Managed? {
      CreateFrame(s, x, p.target, v, pol, cur, top);
    }
  }

  // ----- lists

  ghost predicate ListColumn(s: Schema, x: State, a: Addr) {
    Wf(s, x) && a in x.cells && s[a.t].pk != Some(a.c) && s[a.t].props[a.c].ty.list
  }

  lemma {:induction false} AssignFrame(s: Schema, x: State, a: Addr, v: Value, pol: Policy, top: bool)
    requires ListColumn(s, x, a)
    ensures var p := s[a.t].props[a.c];
      Frame(s, x, Assign(s, x, a, p, v, pol, top).st, PropNames(s, p, v, top), OwnCell(a))
    decreases top, v, 8, 0
  {
    if v.Values? && pol == UpdateModified {
      AssignInPlaceFrame(s, x, a, v, 0, |Items(x, a)|, top);
    } else if v.Values? {
      ClearAndRefillFrame(s, x, a, v, pol, top);
    } else {
      var names := PropNames(s, s[a.t].props[a.c], v, top);
      FrameRefl(s, x, names, OwnCell(a));
      DoFrame(s, x, a, ClearItems);
      Grow(s, x, Do(x, a, ClearItems), {}, OwnCell(a), names, OwnCell(a));
    }
  }

  lemma {:induction false} ClearAndRefillFrame(s: Schema, x: State, a: Addr, v: Value, pol: Policy, top: bool)
    requires ListColumn(s, x, a) && v.Values?
    ensures var p := s[a.t].props[a.c];
      Frame(s, x, Refill(s, Do(x, a, ClearItems), a, p, v, pol, 0, top).st, ItemNames(s, p, v, top, 0), OwnCell(a))
    decreases top, v, 7, |v.elems| + 1
  {
    var p := s[a.t].props[a.c];
    var y := Do(x, a, ClearItems);
    var names := ItemNames(s, p, v, top, 0);
    DoFrame(s, x, a, ClearItems);
    RefillFrame(s, y, a, v, pol, 0, top);
    Then(s, x, y, Refill(s, y, a, p, v, pol, 0, top).st, {}, names, OwnCell(a), OwnCell(a), names, OwnCell(a));
  }

  lemma {:induction false} RefillFrame(s: Schema, x: State, a: Addr, v: Value, pol: Policy, i: nat, top: bool)
    requires ListColumn(s, x, a) && v.Values? && i <= |v.elems|
    ensures var p := s[a.t].props[a.c];
      Frame(s, x, Refill(s, x, a, p, v, pol, i, top).st, ItemNames(s, p, v, top, i), OwnCell(a))
    decreases top, v, 7, |v.elems| - i
  {
    var p := s[a.t].props[a.c];
    if i == |v.elems| {
      FrameRefl(s, x, {}, OwnCell(a));
    } else {
      var u := UnboxItem(s, x, p, v.elems[i], pol, Some(0), top);
      var m := ElemNames(s, p, v.elems[i], top);
      UnboxItemFrame(s, x, p, v.elems[i], pol, Some(0), top);
      Grow(s, x, u.st, m, NOTHING, ItemNames(s, p, v, top, i), OwnCell(a));
      if u.Ok? {
        var y := Do(u.st, a, AddItem(u.val));
        ThenEdit(s, x, u.st, a, AddItem(u.val), m);
        RefillFrame(s, y, a, v, pol, i + 1, top);
        Then(s, x, y, Refill(s, y, a, p, v, pol, i + 1, top).st, m, ItemNames(s, p, v, top, i + 1),
             OwnCell(a), OwnCell(a), ItemNames(s, p, v, top, i), OwnCell(a));
      }
    }
  }

  lemma {:induction false} AssignInPlaceFrame(s: Schema, x: State, a: Addr, v: Value, i: nat, sz: nat, top: bool)
    requires ListColumn(s, x, a) && v.Values? && i <= |v.elems|
    ensures var p := s[a.t].props[a.c];
      Frame(s, x, AssignInPlace(s, x, a, p, v, i, sz, top).st, ItemNames(s, p, v, top, i), OwnCell(a))
    decreases top, v, 7, |v.elems| - i
  {
    var p := s[a.t].props[a.c];
    if i == |v.elems| {
      TrimFrame(s, x, a, i, sz);
    } else {
      var u := Place(s, x, a, p, v.elems[i], i, sz, top);
      var m := ElemNames(s, p, v.elems[i], top);
      PlaceFrame(s, x, a, v.elems[i], i, sz, top);
      if u.Ok? {
        AssignInPlaceFrame(s, u.st, a, v, i + 1, sz, top);
        Then(s, x, u.st, AssignInPlace(s, u.st, a, p, v, i + 1, sz, top).st, m, ItemNames(s, p, v, top, i + 1),
             OwnCell(a), OwnCell(a), ItemNames(s, p, v, top, i), OwnCell(a));
      } else {
        Grow(s, x, u.st, m, OwnCell(a), ItemNames(s, p, v, top, i), OwnCell(a));
      }
    }
  }

  lemma {:induction false} PlaceFrame(s: Schema, x: State, a: Addr, e: Value, i: nat, sz: nat, top: bool)
    requires ListColumn(s, x, a)
    ensures var p := s[a.t].props[a.c];
      Frame(s, x, Place(s, x, a, p, e, i, sz, top).st, ElemNames(s, p, e, top), OwnCell(a))
    decreases top, e, 8, 0
  {
    if i < sz {
      SetIfDifferentFrame(s, x, a, e, i, top);
    } else {
      AppendFrame(s, x, a, e, top);
    }
  }

  lemma {:induction false} SetIfDifferentFrame(s: Schema, x: State, a: Addr, e: Value, i: nat, top: bool)
    requires ListColumn(s, x, a)
    ensures var p := s[a.t].props[a.c];
      Frame(s, x, SetIfDifferent(s, x, a, p, e, i, top).st, ElemNames(s, p, e, top), OwnCell(a))
    decreases top, e, 7, 0
  {
    var p := s[a.t].props[a.c];
    var m := ElemNames(s, p, e, top);
    FrameRefl(s, x, m, OwnCell(a));
    if i < |Items(x, a)| {
      var cur := LinkedRow(Items(x, a)[i]);
      var u := UnboxItem(s, x, p, e, UpdateModified, cur, top);
      UnboxItemFrame(s, x, p, e, UpdateModified, cur, top);
      if u.Ok? {
        PutIfDifferentFrame(s, x, u.st, a, i, Items(x, a)[i], u.val, m);
      } else {
        Grow(s, x, u.st, m, NOTHING, m, OwnCell(a));
      }
    }
  }

  lemma PutIfDifferentFrame(s: Schema, x: State, y: State, a: Addr, i: nat, prev: Cell, item: Cell, m: set<Name>)
    requires ListColumn(s, x, a) && Frame(s, x, y, m, NOTHING)
    ensures Frame(s, x, PutIfDifferent(y, a, i, prev, item).st, m, OwnCell(a))
  {
    Grow(s, x, y, m, NOTHING, m, OwnCell(a));
    if i < |Items(y, a)| {
      ThenEdit(s, x, y, a, PutItem(i, item), m);
    }
  }

  lemma {:induction false} AppendFrame(s: Schema, x: State, a: Addr, e: Value, top: bool)
    requires ListColumn(s, x, a)
    ensures var p := s[a.t].props[a.c];
      Frame(s, x, Append(s, x, a, p, e, top).st, ElemNames(s, p, e, top), OwnCell(a))
    decreases top, e, 7, 0
  {
    var p := s[a.t].props[a.c];
    var u := UnboxItem(s, x, p, e, UpdateModified, Some(0), top);
    UnboxItemFrame(s, x, p, e, UpdateModified, Some(0), top);
    Grow(s, x, u.st, ElemNames(s, p, e, top), NOTHING, ElemNames(s, p, e, top), OwnCell(a));
    if u.Ok? {
      ThenEdit(s, x, u.st, a, AddItem(u.val), ElemNames(s, p, e, top));
    }
  }

  lemma {:induction false} TrimFrame(s: Schema, x: State, a: Addr, i: nat, sz: nat)
    requires ListColumn(s, x, a)
    ensures Frame(s, x, Trim(x, a, i, sz).st, {}, OwnCell(a))
    decreases sz
  {
    FrameRefl(s, x, {}, OwnCell(a));
    if i < sz && sz - 1 < |Items(x, a)| {
      var y := Do(x, a, DropItem(sz - 1));
      DoFrame(s, x, a, DropItem(sz - 1));
      var z := Trim(y, a, i, sz - 1);
      assert Trim(x, a, i, sz) == z;
      TrimFrame(s, y, a, i, sz - 1);
      Then(s, x, y, z.st, {}, {}, OwnCell(a), OwnCell(a), {}, OwnCell(a));
    }
  }
}
