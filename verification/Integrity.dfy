// Over every run, every cell holds content of its column's type, and no link dangles.
module Integrity {
  import opened Options
  import opened PropertyTypes
  import opened Store
  import opened Engine
  import opened Framing
  import opened FrameProofs
  import opened Policies
  import opened Runs

  /** Content for a column or a list position: null only where the type allows it, a scalar
      of the right type, or a link to a row that exists. */
  predicate TypedItem(st: State, p: Property, x: Cell) {
    match x
    case CNull => p.ty.nullable
    case CPrim(q) => HasType(q, p.ty.base)
    case CLink(r) => p.ty.base == Object && r < Count(st, p.target)
    case CList(_) => false
  }

  predicate TypedCell(st: State, p: Property, x: Cell) {
    if p.ty.list then x.CList? && forall i :: 0 <= i < |x.items| ==> TypedItem(st, p, x.items[i])
    else TypedItem(st, p, x)
  }

  ghost function TypedStates(s: Schema): iset<State> {
    iset st: State | Wf(s, st) &&
      forall a {:trigger st.cells[a]} :: a in st.cells ==> TypedCell(st, s[a.t].props[a.c], st.cells[a])
  }

  ghost predicate Typed(s: Schema, st: State) {
    st in TypedStates(s)
  }

  lemma MoreRows(x: State, y: State, p: Property, c: Cell)
    requires TypedCell(x, p, c) && forall t {:trigger Count(y, t)} :: Count(x, t) <= Count(y, t)
    ensures TypedCell(y, p, c)
  {
    assert Count(x, p.target) <= Count(y, p.target);
  }

  lemma DoTyped(s: Schema, x: State, a: Addr, e: Edit)
    requires Typed(s, x) && a in x.cells && TypedCell(x, s[a.t].props[a.c], Edited(Get(x, a), e))
    ensures Typed(s, Do(x, a, e))
  {
    var y := Do(x, a, e);
    DoWf(s, x, a, e);
    assert forall t {:trigger Count(y, t)} :: Count(x, t) <= Count(y, t);
    forall b | b in y.cells ensures TypedCell(y, s[b.t].props[b.c], y.cells[b]) {
      MoreRows(x, y, s[b.t].props[b.c], if b == a then Edited(Get(x, a), e) else x.cells[b]);
    }
  }

  lemma AddRowTyped(s: Schema, x: State, t: nat, init: seq<Cell>)
    requires Typed(s, x) && t < |s| && |init| == |s[t].props|
    requires forall c :: 0 <= c < |init| ==> TypedCell(x, s[t].props[c], init[c])
    ensures Typed(s, AddRow(x, t, init))
  {
    var y := AddRow(x, t, init);
    AddRowWf(s, x, t, init);
    assert forall u {:trigger Count(y, u)} :: Count(x, u) <= Count(y, u);
    forall b | b in y.cells ensures TypedCell(y, s[b.t].props[b.c], y.cells[b]) {
      if b.t == t && b.r == Count(x, t) {
        MoreRows(x, y, s[b.t].props[b.c], init[b.c]);
      } else {
        MoreRows(x, y, s[b.t].props[b.c], x.cells[b]);
      }
    }
  }

  lemma InitialTyped(n: nat, x: State, p: Property)
    requires ValidProperty(n, p)
    ensures TypedCell(x, p, InitialCell(p.ty))
  {
  }

  lemma LocateTyped(s: Schema, x: State, t: nat, v: Value, pol: Policy, cur: Option<nat>)
    requires Typed(s, x) && t < |s|
    ensures Typed(s, Locate(s, x, t, v, pol, cur).st)
  {
    var l := Locate(s, x, t, v, pol, cur);
    if l.Ok? && l.val.created {
      var init := InitialRow(s[t].props);
      if s[t].pk.Some? {
        init := init[s[t].pk.value := KeyOf(s, t, v).val];
      }
      forall c | 0 <= c < |init| ensures TypedCell(x, s[t].props[c], init[c]) {
        InitialTyped(|s|, x, s[t].props[c]);
      }
      AddRowTyped(s, x, t, init);
    }
  }

  lemma {:induction false} CreateTyped(s: Schema, x: State, t: nat, v: Value, pol: Policy, cur: Option<nat>, top: bool)
    requires Typed(s, x) && t < |s|
    ensures Typed(s, Create(s, x, t, v, pol, cur, top).st)
    decreases top, v, 5, 0
  {
    var l := Locate(s, x, t, v, pol, cur);
    LocateTyped(s, x, t, v, pol, cur);
    if v.Unmanaged? && l.Ok? {
      LocateFrame(s, x, t, v, pol, cur);
      PopulateTyped(s, l.st, t, l.val, v, pol, top, 0);
    }
  }

  lemma {:induction false} PopulateTyped(s: Schema, x: State, t: nat, slot: Slot, v: Value, pol: Policy, top: bool, i: nat)
    requires Typed(s, x) && t < |s| && i <= |s[t].props| && slot.row < Count(x, t)
    ensures Typed(s, Populate(s, x, t, slot, v, pol, top, i).st)
    decreases top, v, 4, |s[t].props| - i
  {
    if i < |s[t].props| {
      var l := PopulateOne(s, x, t, slot, v, pol, top, i);
      PopulateIs(s, x, t, slot, v, pol, top, i);
      PopulateOneTyped(s, x, t, slot, v, pol, top, i);
      if l.Ok? {
        PopulateTyped(s, l.st, t, slot, v, pol, top, i + 1);
      }
    }
  }

  lemma {:induction false} PopulateOneTyped(s: Schema, x: State, t: nat, slot: Slot, v: Value, pol: Policy, top: bool, i: nat)
    requires Typed(s, x) && t < |s| && i < |s[t].props| && slot.row < Count(x, t)
    ensures var y := PopulateOne(s, x, t, slot, v, pol, top, i).st; Typed(s, y) && slot.row < Count(y, t)
    decreases top, v, 3, 0
  {
    var f := Supplied(s, t, v, i, top);
    PopulateOneFrame(s, x, t, slot, v, pol, top, i);
    if s[t].pk != Some(i) && f.Given? {
      SetPropTyped(s, x, t, slot.row, i, f.value, pol, FieldOf(v, i).Absent?, SubTop(v, i, top));
    }
  }

  lemma {:induction false} SetPropTyped(s: Schema, x: State, t: nat, row: nat, c: nat, v: Value, pol: Policy, isDefault: bool, top: bool)
    requires Typed(s, x) && t < |s| && c < |s[t].props| && s[t].pk != Some(c) && row < Count(x, t)
    ensures Typed(s, SetProp(s, x, t, row, c, v, pol, isDefault, top).st)
    decreases top, v, 9, 0
  {
    var p := s[t].props[c];
    var a := Addr(t, row, c);
    assert a in x.cells;
    if p.ty.nullable && v.Null? {
      if !p.ty.list {
        DoTyped(s, x, a, SetTo(CNull));
      }
    } else if !p.ty.list {
      UpdateTyped(s, x, a, v, pol, top);
    } else if p.ty.base != LinkingObjects {
      AssignTyped(s, x, a, v, pol, top);
    }
  }

  lemma {:induction false} UpdateTyped(s: Schema, x: State, a: Addr, v: Value, pol: Policy, top: bool)
    requires Typed(s, x) && a in x.cells && !s[a.t].props[a.c].ty.list
    ensures Typed(s, Update(s, x, a, s[a.t].props[a.c], v, pol, top).st)
    decreases top, v, 8, 0
  {
    var p := s[a.t].props[a.c];
    var u := UnboxItem(s, x, p, v, pol, LinkedRow(Get(x, a)), top);
    UnboxItemTyped(s, x, p, v, pol, LinkedRow(Get(x, a)), top, a);
    if u.Ok? {
      DoTyped(s, u.st, a, SetTo(u.val));
    }
  }

  /** Unboxing gives typed content, and existing cells stay. */
  lemma {:induction false} UnboxItemTyped(s: Schema, x: State, p: Property, v: Value, pol: Policy, cur: Option<nat>, top: bool, a: Addr)
    requires Typed(s, x) && ValidProperty(|s|, p) && a in x.cells
    ensures var u := UnboxItem(s, x, p, v, pol, cur, top);
      Typed(s, u.st) && a in u.st.cells && (u.Ok? ==> TypedItem(u.st, p, u.val))
    decreases top, v, 6, 0
  {
    UnboxItemFrame(s, x, p, v, pol, cur, top);
    if p.ty.base == Object && !v.Managed? {
      CreateTyped(s, x, p.target, v, pol, cur, top);
      CreateFrame(s, x, p.target, v, pol, cur, top);
    }
  }

  // ----- lists

  lemma {:induction false} AssignTyped(s: Schema, x: State, a: Addr, v: Value, pol: Policy, top: bool)
    requires Typed(s, x) && a in x.cells && s[a.t].props[a.c].ty.list
    ensures Typed(s, Assign(s, x, a, s[a.t].props[a.c], v, pol, top).st)
    decreases top, v, 8, 0
  {
    DoTyped(s, x, a, ClearItems);
    if v.Values? {
      if pol == UpdateModified {
        InPlaceTyped(s, x, a, s[a.t].props[a.c], v, 0, |Items(x, a)|, top);
      } else {
        RefillTyped(s, Do(x, a, ClearItems), a, s[a.t].props[a.c], v, pol, 0, top);
      }
    }
  }

  lemma ItemsTyped(s: Schema, x: State, a: Addr)
    requires Typed(s, x) && a in x.cells && s[a.t].props[a.c].ty.list
    ensures Get(x, a).CList? && forall i :: 0 <= i < |Items(x, a)| ==> TypedItem(x, s[a.t].props[a.c], Items(x, a)[i])
  {
    assert TypedCell(x, s[a.t].props[a.c], x.cells[a]);
  }

  lemma AddItemTyped(s: Schema, x: State, a: Addr, item: Cell)
    requires Typed(s, x) && a in x.cells && s[a.t].props[a.c].ty.list && TypedItem(x, s[a.t].props[a.c], item)
    ensures Typed(s, Do(x, a, AddItem(item)))
  {
    ItemsTyped(s, x, a);
    DoTyped(s, x, a, AddItem(item));
  }

  lemma PutTyped(s: Schema, x: State, a: Addr, i: nat, prev: Cell, item: Cell)
    requires Typed(s, x) && a in x.cells && s[a.t].props[a.c].ty.list && TypedItem(x, s[a.t].props[a.c], item)
    ensures var y := PutIfDifferent(x, a, i, prev, item).st; Typed(s, y) && a in y.cells
  {
    if i < |Items(x, a)| {
      ItemsTyped(s, x, a);
      DoTyped(s, x, a, PutItem(i, item));
    }
  }

  /** Unbox an element and append it. */
  lemma {:induction false} AddedTyped(s: Schema, x: State, a: Addr, p: Property, e: Value, pol: Policy, top: bool)
    requires Typed(s, x) && a in x.cells && p == s[a.t].props[a.c] && p.ty.list
    ensures var u := UnboxItem(s, x, p, e, pol, Some(0), top);
      Typed(s, u.st) && a in u.st.cells && (u.Ok? ==> Typed(s, Do(u.st, a, AddItem(u.val))))
    decreases top, e, 7, 0
  {
    var u := UnboxItem(s, x, p, e, pol, Some(0), top);
    UnboxItemTyped(s, x, p, e, pol, Some(0), top, a);
    if u.Ok? {
      AddItemTyped(s, u.st, a, u.val);
    }
  }

  lemma {:induction false} RefillTyped(s: Schema, x: State, a: Addr, p: Property, v: Value, pol: Policy, i: nat, top: bool)
    requires Typed(s, x) && a in x.cells && p == s[a.t].props[a.c] && p.ty.list && v.Values? && i <= |v.elems|
    ensures Typed(s, Refill(s, x, a, p, v, pol, i, top).st)
    decreases top, v, 7, |v.elems| - i
  {
    if i < |v.elems| {
      var u := UnboxItem(s, x, p, v.elems[i], pol, Some(0), top);
      AddedTyped(s, x, a, p, v.elems[i], pol, top);
      if u.Ok? {
        RefillTyped(s, Do(u.st, a, AddItem(u.val)), a, p, v, pol, i + 1, top);
      }
    }
  }

  lemma {:induction false} InPlaceTyped(s: Schema, x: State, a: Addr, p: Property, v: Value, i: nat, sz: nat, top: bool)
    requires Typed(s, x) && a in x.cells && p == s[a.t].props[a.c] && p.ty.list && v.Values? && i <= |v.elems|
    ensures Typed(s, AssignInPlace(s, x, a, p, v, i, sz, top).st)
    decreases top, v, 7, |v.elems| - i
  {
    if i == |v.elems| {
      TrimTyped(s, x, a, i, sz);
    } else {
      var l := Place(s, x, a, p, v.elems[i], i, sz, top);
      PlaceTyped(s, x, a, p, v.elems[i], i, sz, top);
      if l.Ok? {
        InPlaceTyped(s, l.st, a, p, v, i + 1, sz, top);
      }
    }
  }

  lemma {:induction false} PlaceTyped(s: Schema, x: State, a: Addr, p: Property, e: Value, i: nat, sz: nat, top: bool)
    requires Typed(s, x) && a in x.cells && p == s[a.t].props[a.c] && p.ty.list
    ensures var y := Place(s, x, a, p, e, i, sz, top).st; Typed(s, y) && a in y.cells
    decreases top, e, 8, 0
  {
    if i < sz {
      SetIfDifferentTyped(s, x, a, p, e, i, top);
    } else {
      AddedTyped(s, x, a, p, e, UpdateModified, top);
    }
  }

  lemma {:induction false} SetIfDifferentTyped(s: Schema, x: State, a: Addr, p: Property, e: Value, i: nat, top: bool)
    requires Typed(s, x) && a in x.cells && p == s[a.t].props[a.c] && p.ty.list
    ensures var y := SetIfDifferent(s, x, a, p, e, i, top).st; Typed(s, y) && a in y.cells
    decreases top, e, 7, 0
  {
    if i < |Items(x, a)| {
      var prev := Items(x, a)[i];
      var u := UnboxItem(s, x, p, e, UpdateModified, LinkedRow(prev), top);
      UnboxItemTyped(s, x, p, e, UpdateModified, LinkedRow(prev), top, a);
      if u.Ok? {
        PutTyped(s, u.st, a, i, prev, u.val);
      }
    }
  }

  lemma {:induction false} TrimTyped(s: Schema, x: State, a: Addr, i: nat, sz: nat)
    requires Typed(s, x) && a in x.cells && s[a.t].props[a.c].ty.list
    ensures Typed(s, Trim(x, a, i, sz).st)
    decreases sz
  {
    if i < sz && sz - 1 < |Items(x, a)| {
      ItemsTyped(s, x, a);
      DoTyped(s, x, a, DropItem(sz - 1));
      TrimTyped(s, Do(x, a, DropItem(sz - 1)), a, i, sz - 1);
    }
  }

  // ----- sound databases

  ghost function SoundStates(s: Schema): iset<State> {
    iset st: State | Typed(s, st) && UniqueKeys(s, st)
  }

  /** Typed, without dangling links, and without a key that occurs twice. */
  ghost predicate Sound(s: Schema, st: State) {
    st in SoundStates(s)
  }

  lemma SoundAfter(s: Schema, x: State, y: State, names: set<Name>, o: Own)
    requires Sound(s, x) && Typed(s, y) && Frame(s, x, y, names, o)
    ensures Sound(s, y) && KeysStable(s, x, y)
  {
    FreshKeysStayUnique(s, x, y);
  }

  lemma CreateSound(s: Schema, x: State, t: nat, v: Value, pol: Policy, cur: Option<nat>, top: bool)
    requires Sound(s, x) && t < |s|
    ensures var y := Create(s, x, t, v, pol, cur, top).st; Sound(s, y) && KeysStable(s, x, y)
  {
    CreateTyped(s, x, t, v, pol, cur, top);
    CreateFrame(s, x, t, v, pol, cur, top);
    SoundAfter(s, x, Create(s, x, t, v, pol, cur, top).st, Names(s, t, v, top), NOTHING);
  }

  lemma LocateSound(s: Schema, x: State, t: nat, v: Value, pol: Policy, cur: Option<nat>)
    requires Sound(s, x) && t < |s|
    ensures var l := Locate(s, x, t, v, pol, cur); Sound(s, l.st) && (l.Ok? ==> l.val.row < Count(l.st, t))
  {
    LocateTyped(s, x, t, v, pol, cur);
    LocateFrame(s, x, t, v, pol, cur);
    SoundAfter(s, x, Locate(s, x, t, v, pol, cur).st, if KeyOf(s, t, v).Good? then {Name(t, KeyOf(s, t, v).val)} else {}, NOTHING);
  }

  lemma PopulateOneSound(s: Schema, x: State, t: nat, slot: Slot, v: Value, pol: Policy, top: bool, i: nat)
    requires Sound(s, x) && t < |s| && i < |s[t].props| && slot.row < Count(x, t)
    ensures var y := PopulateOne(s, x, t, slot, v, pol, top, i).st; Sound(s, y) && slot.row < Count(y, t)
  {
    PopulateOneTyped(s, x, t, slot, v, pol, top, i);
    PopulateOneFrame(s, x, t, slot, v, pol, top, i);
    SoundAfter(s, x, PopulateOne(s, x, t, slot, v, pol, top, i).st, NamesAt(s, t, v, top, i), Own(t, slot.row, i, i + 1));
  }

  lemma SetPropSound(s: Schema, x: State, t: nat, row: nat, c: nat, v: Value, pol: Policy, isDefault: bool, top: bool)
    requires Sound(s, x) && t < |s| && c < |s[t].props| && s[t].pk != Some(c) && row < Count(x, t)
    ensures var y := SetProp(s, x, t, row, c, v, pol, isDefault, top).st; Sound(s, y) && KeysStable(s, x, y)
  {
    SetPropTyped(s, x, t, row, c, v, pol, isDefault, top);
    SetPropFrame(s, x, t, row, c, v, pol, isDefault, top);
    SoundAfter(s, x, SetProp(s, x, t, row, c, v, pol, isDefault, top).st, PropNames(s, s[t].props[c], v, top), Own(t, row, c, c + 1));
  }

  lemma UpdateSound(s: Schema, x: State, a: Addr, p: Property, v: Value, pol: Policy, top: bool)
    requires Sound(s, x) && a in x.cells && p == s[a.t].props[a.c] && !p.ty.list && s[a.t].pk != Some(a.c)
    ensures Sound(s, Update(s, x, a, p, v, pol, top).st)
  {
    UpdateTyped(s, x, a, v, pol, top);
    UpdateFrame(s, x, a, v, pol, top);
    SoundAfter(s, x, Update(s, x, a, p, v, pol, top).st, ElemNames(s, p, v, top), OwnCell(a));
  }

  lemma UnboxSound(s: Schema, x: State, p: Property, v: Value, pol: Policy, cur: Option<nat>, top: bool)
    requires Sound(s, x) && ValidProperty(|s|, p)
    ensures Sound(s, UnboxItem(s, x, p, v, pol, cur, top).st)
  {
    if p.ty.base == Object && !v.Managed? {
      CreateSound(s, x, p.target, v, pol, cur, top);
    }
  }

  /** A list column, described by `p`, in a sound database. */
  ghost predicate SoundList(s: Schema, x: State, a: Addr, p: Property) {
    Sound(s, x) && a in x.cells && p == s[a.t].props[a.c] && p.ty.list && s[a.t].pk != Some(a.c)
  }

  lemma EditSound(s: Schema, x: State, a: Addr, p: Property, e: Edit)
    requires SoundList(s, x, a, p) && TypedCell(x, p, Edited(Get(x, a), e))
    ensures SoundList(s, Do(x, a, e), a, p)
  {
    DoTyped(s, x, a, e);
    DoFrame(s, x, a, e);
    SoundAfter(s, x, Do(x, a, e), {}, OwnCell(a));
  }

  lemma TrimSound(s: Schema, x: State, a: Addr, p: Property, i: nat, sz: nat)
    requires SoundList(s, x, a, p)
    ensures SoundList(s, Trim(x, a, i, sz).st, a, p)
  {
    TrimTyped(s, x, a, i, sz);
    TrimFrame(s, x, a, i, sz);
    SoundAfter(s, x, Trim(x, a, i, sz).st, {}, OwnCell(a));
  }

  lemma AddedSound(s: Schema, x: State, a: Addr, p: Property, e: Value, pol: Policy, top: bool)
    requires SoundList(s, x, a, p)
    ensures var u := UnboxItem(s, x, p, e, pol, Some(0), top);
      SoundList(s, u.st, a, p) && (u.Ok? ==> SoundList(s, Do(u.st, a, AddItem(u.val)), a, p))
  {
    var u := UnboxItem(s, x, p, e, pol, Some(0), top);
    UnboxSound(s, x, p, e, pol, Some(0), top);
    UnboxItemTyped(s, x, p, e, pol, Some(0), top, a);
    if u.Ok? {
      ItemsTyped(s, u.st, a);
      EditSound(s, u.st, a, p, AddItem(u.val));
    }
  }

  lemma PlaceSound(s: Schema, x: State, a: Addr, p: Property, e: Value, i: nat, sz: nat, top: bool)
    requires SoundList(s, x, a, p)
    ensures SoundList(s, Place(s, x, a, p, e, i, sz, top).st, a, p)
  {
    PlaceTyped(s, x, a, p, e, i, sz, top);
    PlaceFrame(s, x, a, e, i, sz, top);
    SoundAfter(s, x, Place(s, x, a, p, e, i, sz, top).st, ElemNames(s, p, e, top), OwnCell(a));
  }

  // ----- runs

  lemma {:induction false} BatchTyped(s: Schema, x: State, t: nat, rows: seq<nat>, c: nat, v: Value, i: nat)
    requires Typed(s, x) && t < |s| && c < |s[t].props| && s[t].pk != Some(c) && i <= |rows|
    ensures Typed(s, BatchFrom(s, x, t, rows, c, v, i).st)
    decreases |rows| - i
  {
    if i < |rows| && rows[i] < Count(x, t) {
      var r := SetProp(s, x, t, rows[i], c, v, ForceCreate, false, true);
      SetPropTyped(s, x, t, rows[i], c, v, ForceCreate, false, true);
      if r.Ok? {
        BatchTyped(s, r.st, t, rows, c, v, i + 1);
      }
    }
  }

  lemma BatchSound(s: Schema, x: State, t: nat, rows: seq<nat>, c: nat, v: Value)
    requires Sound(s, x) && t < |s| && c < |s[t].props| && s[t].pk != Some(c)
    ensures var y := BatchFrom(s, x, t, rows, c, v, 0).st; Sound(s, y) && KeysStable(s, x, y)
  {
    BatchTyped(s, x, t, rows, c, v, 0);
    BatchFromKeys(s, x, t, rows, c, v, 0);
    FreshKeysStayUnique(s, x, BatchFrom(s, x, t, rows, c, v, 0).st);
  }

  lemma ExecTyped(s: Schema, x: State, call: Call)
    requires Typed(s, x)
    ensures Typed(s, Exec(s, x, call))
  {
    if call.t < |s| {
      match call
      case CreateCall(t, v, pol) => CreateTyped(s, x, t, v, pol, None, true);
      case SetCall(t, row, c, v, pol) =>
        if row < Count(x, t) && c < |s[t].props| && s[t].pk != Some(c) {
          SetPropTyped(s, x, t, row, c, v, pol, false, true);
        }
      case BatchCall(t, rows, c, v) =>
        if c < |s[t].props| && s[t].pk != Some(c) {
          BatchTyped(s, x, t, rows, c, v, 0);
        }
    }
  }

  lemma {:induction false} ExecAllTyped(s: Schema, x: State, calls: seq<Call>)
    requires Typed(s, x)
    ensures Typed(s, ExecAll(s, x, calls))
    decreases |calls|
  {
    if calls != [] {
      ExecTyped(s, x, calls[0]);
      ExecAllTyped(s, Exec(s, x, calls[0]), calls[1..]);
    }
  }

  /** From an empty database, whatever is called and whichever calls raise: every cell holds
      content of its column's type, and every link and list of links leads to rows that exist. */
  lemma NothingDangles(s: Schema, calls: seq<Call>, a: Addr)
    ensures var y := ExecAll(s, State(map[], map[], []), calls);
      && Wf(s, y) && UniqueKeys(s, y)
      && (a in y.cells ==> TypedCell(y, s[a.t].props[a.c], y.cells[a]))
  {
    var x := State(map[], map[], []);
    assert Wf(s, x);
    assert Typed(s, x);
    ExecAllTyped(s, x, calls);
    KeysStayUnique(s, x, calls);
  }
}
