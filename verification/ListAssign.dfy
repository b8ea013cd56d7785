// `List::assign`: both strategies end with exactly the unboxed sequence, and the
// in-place one issues exactly the writes that turn the old list into it.
module ListAssign {
  import opened Options
  import opened PropertyTypes
  import opened Store
  import opened Engine
  import opened Framing
  import opened FrameProofs
  import opened Policies
  import opened Reading

  // ----- the cell that an element denotes

  function Denoted(s: Schema, y: State, p: Property, v: Value): Option<Cell>
    requires ValidProperty(|s|, p)
  {
    if p.ty.base != Object then
      (match UnboxScalar(p.ty, v) case Good(x) => Some(x) case Bad(_) => None)
    else if v.Managed? then Some(CLink(v.row))
    else if KeyOf(s, p.target, v).Bad? then None
    else match Find(s, y, p.target, KeyOf(s, p.target, v).val)
      case Some(r) => Some(CLink(r))
      case None => None
  }

  /** An object that is described property by property can be told from others by its key. */
  predicate HasKey(s: Schema, p: Property, v: Value)
    requires ValidProperty(|s|, p)
  {
    p.ty.base == Object && v.Unmanaged? ==> s[p.target].pk.Some?
  }

  /** The list holds, position by position, what the elements denote. */
  ghost predicate Holds(s: Schema, y: State, p: Property, items: seq<Cell>, elems: seq<Value>)
    requires ValidProperty(|s|, p)
  {
    |items| == |elems| && forall j :: 0 <= j < |elems| ==> Denoted(s, y, p, elems[j]) == Some(items[j])
  }

  lemma DenotedStable(s: Schema, x: State, y: State, p: Property, v: Value)
    requires ValidProperty(|s|, p) && KeysStable(s, x, y) && Denoted(s, x, p, v).Some?
    ensures Denoted(s, y, p, v) == Denoted(s, x, p, v)
  {
    if p.ty.base == Object && !v.Managed? {
      FindStable(s, x, y, p.target, KeyOf(s, p.target, v).val);
    }
  }

  lemma HoldsStable(s: Schema, x: State, y: State, p: Property, items: seq<Cell>, elems: seq<Value>)
    requires ValidProperty(|s|, p) && KeysStable(s, x, y) && Holds(s, x, p, items, elems)
    ensures Holds(s, y, p, items, elems)
  {
    forall j | 0 <= j < |elems| ensures Denoted(s, y, p, elems[j]) == Some(items[j]) {
      DenotedStable(s, x, y, p, elems[j]);
    }
  }

  lemma UnboxDenotes(s: Schema, x: State, p: Property, v: Value, pol: Policy, cur: Option<nat>, top: bool)
    requires Wf(s, x) && ValidProperty(|s|, p) && UnboxItem(s, x, p, v, pol, cur, top).Ok?
    requires HasKey(s, p, v)
    ensures var u := UnboxItem(s, x, p, v, pol, cur, top);
      Denoted(s, u.st, p, v) == Some(u.val)
  {
    if p.ty.base == Object && !v.Managed? {
      CreateFinds(s, x, p.target, v, pol, cur, top);
    }
  }

  // ----- the writes of one list

  /** The edits of cell `a` in a log. */
  function EditsAt(log: seq<Op>, a: Addr): seq<Edit> {
    if log == [] then []
    else
      var last := log[|log| - 1];
      EditsAt(log[..|log| - 1], a) + (if last.At? && last.a == a then [last.edit] else [])
  }

  lemma EditsAtDo(x: State, a: Addr, e: Edit)
    ensures EditsAt(Do(x, a, e).log, a) == EditsAt(x.log, a) + [e]
  {
    var log := Do(x, a, e).log;
    assert log[..|log| - 1] == x.log;
  }

  lemma {:induction false} EditsAtPrefix(log: seq<Op>, n: nat, a: Addr)
    requires n <= |log| && forall i :: n <= i < |log| && log[i].At? ==> log[i].a != a
    ensures EditsAt(log, a) == EditsAt(log[..n], a)
    decreases |log| - n
  {
    if n < |log| {
      assert log[..|log| - 1][..n] == log[..n];
      EditsAtPrefix(log[..|log| - 1], n, a);
    } else {
      assert log[..n] == log;
    }
  }

  lemma EditsAtFrame(s: Schema, x: State, y: State, m: set<Name>, a: Addr)
    requires Wf(s, x) && Frame(s, x, y, m, NOTHING) && a in x.cells && NameAt(s, x, a.t, a.r) !in m
    ensures EditsAt(y.log, a) == EditsAt(x.log, a)
  {
    Unchanged(s, x, y, m, NOTHING, a);
    forall i | |x.log| <= i < |y.log| && y.log[i].At? ensures y.log[i].a != a {
    }
    EditsAtPrefix(y.log, |x.log|, a);
    assert y.log[..|x.log|] == x.log;
  }

  /** The edit of position `i` that makes it hold `x`: none if it already does. */
  function Piece(prev: seq<Cell>, i: nat, x: Cell): seq<Edit> {
    if i >= |prev| then [AddItem(x)] else if Differs(prev[i], x) then [PutItem(i, x)] else []
  }

  /** The edits that turn `prev` into `next` from position `i` on: one per differing common
      position, one per added position, then one per surplus position from the back. */
  function Plan(prev: seq<Cell>, next: seq<Cell>, i: nat): seq<Edit>
    requires i <= |next|
    decreases |next| - i
  {
    if i == |next| then Drops(|prev|, i) else Piece(prev, i, next[i]) + Plan(prev, next, i + 1)
  }

  function Drops(sz: nat, i: nat): seq<Edit> {
    if i >= sz then [] else [DropItem(sz - 1)] + Drops(sz - 1, i)
  }

  // ----- the in-place path

  ghost function MidwayStates(s: Schema, a: Addr, prev: seq<Cell>, elems: seq<Value>, i: nat): iset<State>
    requires a.t < |s| && a.c < |s[a.t].props|
  {
    iset x: State |
      && ListColumn(s, x, a) && i <= |elems|
      && |Items(x, a)| == (if i < |prev| then |prev| else i)
      && (forall j :: i <= j < |prev| ==> Items(x, a)[j] == prev[j])
      && Holds(s, x, s[a.t].props[a.c], Items(x, a)[..i], elems[..i])
  }

  /** A list whose first `i` positions are done and whose tail is still the old one. */
  ghost predicate Midway(s: Schema, x: State, a: Addr, prev: seq<Cell>, elems: seq<Value>, i: nat)
    requires a.t < |s| && a.c < |s[a.t].props|
  {
    x in MidwayStates(s, a, prev, elems, i)
  }

  lemma {:induction false} TrimEdits(x: State, a: Addr, i: nat, sz: nat)
    requires Get(x, a).CList? && |Items(x, a)| == (if i < sz then sz else i)
    ensures EditsAt(Trim(x, a, i, sz).st.log, a) == EditsAt(x.log, a) + Drops(sz, i)
    decreases sz
  {
    if i < sz {
      var y := Do(x, a, DropItem(sz - 1));
      assert Items(y, a) == Items(x, a)[..sz - 1];
      EditsAtDo(x, a, DropItem(sz - 1));
      TrimEdits(y, a, i, sz - 1);
    }
  }

  lemma PutEdits(x: State, a: Addr, i: nat, prev: seq<Cell>, item: Cell)
    requires |Items(x, a)| == (if i < |prev| then |prev| else i) && (i < |prev| ==> Items(x, a)[i] == prev[i])
    ensures EditsAt(AfterPut(x, a, i, |prev|, item).log, a) == EditsAt(x.log, a) + Piece(prev, i, item)
    ensures var y := AfterPut(x, a, i, |prev|, item);
      && y.rows == x.rows
      && |Items(y, a)| == (if i + 1 < |prev| then |prev| else i + 1)
      && Items(y, a)[i] == item
      && Items(y, a)[..i] == Items(x, a)[..i]
      && (forall j :: i + 1 <= j < |prev| ==> Items(y, a)[j] == Items(x, a)[j])
  {
    EditsAtDo(x, a, AddItem(item));
    EditsAtDo(x, a, PutItem(i, item));
  }

  lemma PutKeys(s: Schema, x: State, a: Addr, i: nat, sz: nat, item: Cell)
    requires ListColumn(s, x, a) && |Items(x, a)| == (if i < sz then sz else i)
    ensures ListColumn(s, AfterPut(x, a, i, sz, item), a) && KeysStable(s, x, AfterPut(x, a, i, sz, item))
  {
    if i < sz {
      DoFrame(s, x, a, PutItem(i, item));
    } else {
      DoFrame(s, x, a, AddItem(item));
    }
  }

  /** Element `i`: afterwards position `i` holds what the element denotes, and the edit of
      this list was the one that the plan asks for. */
  lemma PlaceMidway(s: Schema, x: State, a: Addr, prev: seq<Cell>, elems: seq<Value>, i: nat, top: bool)
    requires a.t < |s| && a.c < |s[a.t].props| && i < |elems| && Midway(s, x, a, prev, elems, i)
    requires HasKey(s, s[a.t].props[a.c], elems[i])
    requires NameAt(s, x, a.t, a.r) !in ElemNames(s, s[a.t].props[a.c], elems[i], top)
    requires Place(s, x, a, s[a.t].props[a.c], elems[i], i, |prev|, top).Ok?
    ensures var y := Place(s, x, a, s[a.t].props[a.c], elems[i], i, |prev|, top).st;
      && Midway(s, y, a, prev, elems, i + 1)
      && NameAt(s, y, a.t, a.r) == NameAt(s, x, a.t, a.r)
      && Items(y, a)[..i] == Items(x, a)[..i]
      && EditsAt(y.log, a) == EditsAt(x.log, a) + Piece(prev, i, Items(y, a)[i])
  {
    var p := s[a.t].props[a.c];
    var cur := if i < |prev| then LinkedRow(Items(x, a)[i]) else Some(0);
    var u := UnboxItem(s, x, p, elems[i], UpdateModified, cur, top);
    var names := ElemNames(s, p, elems[i], top);
    PlaceIs(s, x, a, p, elems[i], i, |prev|, top);
    UnboxItemFrame(s, x, p, elems[i], UpdateModified, cur, top);
    UnboxDenotes(s, x, p, elems[i], UpdateModified, cur, top);
    PlaceFrom(s, x, u.st, a, prev, elems, i, u.val, names);
  }

  lemma PlaceFrom(s: Schema, x: State, u: State, a: Addr, prev: seq<Cell>, elems: seq<Value>, i: nat, val: Cell, names: set<Name>)
    requires a.t < |s| && a.c < |s[a.t].props| && i < |elems| && Midway(s, x, a, prev, elems, i)
    requires Frame(s, x, u, names, NOTHING) && NameAt(s, x, a.t, a.r) !in names
    requires Denoted(s, u, s[a.t].props[a.c], elems[i]) == Some(val)
    ensures Items(u, a) == Items(x, a)
    ensures var y := AfterPut(u, a, i, |prev|, val);
      && Midway(s, y, a, prev, elems, i + 1)
      && NameAt(s, y, a.t, a.r) == NameAt(s, x, a.t, a.r)
      && Items(y, a)[..i] == Items(x, a)[..i]
      && EditsAt(y.log, a) == EditsAt(x.log, a) + Piece(prev, i, Items(y, a)[i])
  {
    var y := AfterPut(u, a, i, |prev|, val);
    Unchanged(s, x, u, names, NOTHING, a);
    EditsAtFrame(s, x, u, names, a);
    PutEdits(u, a, i, prev, val);
    PutKeys(s, u, a, i, |prev|, val);
    KeysStableTrans(s, x, u, y);
    DenotedStable(s, u, y, s[a.t].props[a.c], elems[i]);
    OneMore(s, x, y, a, prev, elems, i);
  }

  lemma OneMore(s: Schema, x: State, y: State, a: Addr, prev: seq<Cell>, elems: seq<Value>, i: nat)
    requires a.t < |s| && a.c < |s[a.t].props| && i < |elems| && Midway(s, x, a, prev, elems, i)
    requires ListColumn(s, y, a) && KeysStable(s, x, y)
    requires |Items(y, a)| == (if i + 1 < |prev| then |prev| else i + 1)
    requires Items(y, a)[..i] == Items(x, a)[..i]
    requires forall j :: i + 1 <= j < |prev| ==> Items(y, a)[j] == Items(x, a)[j]
    requires Denoted(s, y, s[a.t].props[a.c], elems[i]) == Some(Items(y, a)[i])
    ensures Midway(s, y, a, prev, elems, i + 1)
  {
    HoldsStable(s, x, y, s[a.t].props[a.c], Items(x, a)[..i], elems[..i]);
    assert Items(y, a)[..i + 1] == Items(x, a)[..i] + [Items(y, a)[i]];
    assert elems[..i + 1] == elems[..i] + [elems[i]];
  }

  lemma TrimHolds(s: Schema, x: State, a: Addr, prev: seq<Cell>, elems: seq<Value>)
    requires a.t < |s| && a.c < |s[a.t].props| && Midway(s, x, a, prev, elems, |elems|)
    ensures var y := Trim(x, a, |elems|, |prev|).st;
      && Holds(s, y, s[a.t].props[a.c], Items(y, a), elems)
      && Items(y, a) == Items(x, a)[..|elems|]
      && EditsAt(y.log, a) == EditsAt(x.log, a) + Plan(prev, Items(y, a), |elems|)
  {
    var y := Trim(x, a, |elems|, |prev|).st;
    TrimSpec(x, a, |elems|, |prev|);
    TrimEdits(x, a, |elems|, |prev|);
    TrimFrame(s, x, a, |elems|, |prev|);
    assert elems[..|elems|] == elems;
    HoldsStable(s, x, y, s[a.t].props[a.c], Items(x, a)[..|elems|], elems);
  }

  lemma {:induction false} InPlaceHolds(s: Schema, x: State, a: Addr, prev: seq<Cell>, v: Value, i: nat, top: bool)
    requires a.t < |s| && a.c < |s[a.t].props| && v.Values? && Midway(s, x, a, prev, v.elems, i)
    requires forall e :: e in v.elems ==> HasKey(s, s[a.t].props[a.c], e)
    requires NameAt(s, x, a.t, a.r) !in ItemNames(s, s[a.t].props[a.c], v, top, i)
    requires AssignInPlace(s, x, a, s[a.t].props[a.c], v, i, |prev|, top).Ok?
    ensures var p := s[a.t].props[a.c]; var y := AssignInPlace(s, x, a, p, v, i, |prev|, top).st;
      && Holds(s, y, p, Items(y, a), v.elems)
      && Items(y, a)[..i] == Items(x, a)[..i]
      && EditsAt(y.log, a) == EditsAt(x.log, a) + Plan(prev, Items(y, a), i)
    decreases |v.elems| - i
  {
    var p := s[a.t].props[a.c];
    var y := AssignInPlace(s, x, a, p, v, i, |prev|, top).st;
    if i == |v.elems| {
      TrimHolds(s, x, a, prev, v.elems);
    } else {
      var l := Place(s, x, a, p, v.elems[i], i, |prev|, top);
      assert y == AssignInPlace(s, l.st, a, p, v, i + 1, |prev|, top).st;
      PlaceMidway(s, x, a, prev, v.elems, i, top);
      InPlaceHolds(s, l.st, a, prev, v, i + 1, top);
      PlanStep(EditsAt(x.log, a), prev, Items(y, a), Items(l.st, a), i);
      assert Items(l.st, a)[..i] == Items(x, a)[..i];
    }
  }

  lemma Assoc(p: seq<Edit>, q: seq<Edit>, r: seq<Edit>)
    ensures p + q + r == p + (q + r)
  {
  }

  lemma PlanStep(before: seq<Edit>, prev: seq<Cell>, next: seq<Cell>, mid: seq<Cell>, i: nat)
    requires i < |next| && i < |mid| && next[..i + 1] == mid[..i + 1]
    ensures next[..i] == mid[..i]
    ensures before + Piece(prev, i, mid[i]) + Plan(prev, next, i + 1) == before + Plan(prev, next, i)
  {
    Assoc(before, Piece(prev, i, mid[i]), Plan(prev, next, i + 1));
    assert next[i] == next[..i + 1][i] == mid[i];
    assert next[..i] == next[..i + 1][..i];
    assert mid[..i] == mid[..i + 1][..i];
  }

  // ----- the clear-and-refill path

  lemma AddMidway(s: Schema, x: State, a: Addr, elems: seq<Value>, pol: Policy, i: nat, top: bool)
    requires a.t < |s| && a.c < |s[a.t].props| && i < |elems| && Midway(s, x, a, [], elems, i)
    requires HasKey(s, s[a.t].props[a.c], elems[i])
    requires NameAt(s, x, a.t, a.r) !in ElemNames(s, s[a.t].props[a.c], elems[i], top)
    requires UnboxItem(s, x, s[a.t].props[a.c], elems[i], pol, Some(0), top).Ok?
    ensures var u := UnboxItem(s, x, s[a.t].props[a.c], elems[i], pol, Some(0), top);
      var y := Do(u.st, a, AddItem(u.val));
      && Midway(s, y, a, [], elems, i + 1)
      && NameAt(s, y, a.t, a.r) == NameAt(s, x, a.t, a.r)
      && Items(y, a)[..i] == Items(x, a)[..i]
      && EditsAt(y.log, a) == EditsAt(x.log, a) + Piece([], i, Items(y, a)[i])
  {
    var p := s[a.t].props[a.c];
    var u := UnboxItem(s, x, p, elems[i], pol, Some(0), top);
    UnboxItemFrame(s, x, p, elems[i], pol, Some(0), top);
    UnboxDenotes(s, x, p, elems[i], pol, Some(0), top);
    PlaceFrom(s, x, u.st, a, [], elems, i, u.val, ElemNames(s, p, elems[i], top));
  }

  lemma FilledHolds(s: Schema, x: State, a: Addr, elems: seq<Value>)
    requires a.t < |s| && a.c < |s[a.t].props| && Midway(s, x, a, [], elems, |elems|)
    ensures Holds(s, x, s[a.t].props[a.c], Items(x, a), elems)
    ensures EditsAt(x.log, a) == EditsAt(x.log, a) + Plan([], Items(x, a), |elems|)
  {
    assert Items(x, a)[..|elems|] == Items(x, a) && elems[..|elems|] == elems;
    assert Plan([], Items(x, a), |elems|) == [];
  }

  lemma {:induction false} RefillHolds(s: Schema, x: State, a: Addr, v: Value, pol: Policy, i: nat, top: bool)
    requires a.t < |s| && a.c < |s[a.t].props| && v.Values? && Midway(s, x, a, [], v.elems, i)
    requires forall e :: e in v.elems ==> HasKey(s, s[a.t].props[a.c], e)
    requires NameAt(s, x, a.t, a.r) !in ItemNames(s, s[a.t].props[a.c], v, top, i)
    requires Refill(s, x, a, s[a.t].props[a.c], v, pol, i, top).Ok?
    ensures var p := s[a.t].props[a.c]; var y := Refill(s, x, a, p, v, pol, i, top).st;
      && Holds(s, y, p, Items(y, a), v.elems)
      && Items(y, a)[..i] == Items(x, a)[..i]
      && EditsAt(y.log, a) == EditsAt(x.log, a) + Plan([], Items(y, a), i)
    decreases |v.elems| - i
  {
    var p := s[a.t].props[a.c];
    var y := Refill(s, x, a, p, v, pol, i, top).st;
    if i == |v.elems| {
      FilledHolds(s, x, a, v.elems);
    } else {
      var u := UnboxItem(s, x, p, v.elems[i], pol, Some(0), top);
      var z := Do(u.st, a, AddItem(u.val));
      assert y == Refill(s, z, a, p, v, pol, i + 1, top).st;
      AddMidway(s, x, a, v.elems, pol, i, top);
      RefillHolds(s, z, a, v, pol, i + 1, top);
      PlanStep(EditsAt(x.log, a), [], Items(y, a), Items(z, a), i);
    }
  }

  lemma ClearMidway(s: Schema, x: State, a: Addr, elems: seq<Value>)
    requires ListColumn(s, x, a)
    ensures var y := Do(x, a, ClearItems);
      && Midway(s, y, a, [], elems, 0)
      && NameAt(s, y, a.t, a.r) == NameAt(s, x, a.t, a.r)
      && EditsAt(y.log, a) == EditsAt(x.log, a) + [ClearItems]
  {
    DoFrame(s, x, a, ClearItems);
    EditsAtDo(x, a, ClearItems);
    assert NameAt(s, Do(x, a, ClearItems), a.t, a.r) == NameAt(s, x, a.t, a.r);
  }

  lemma ClearAndRefillHolds(s: Schema, x: State, a: Addr, v: Value, pol: Policy, top: bool)
    requires ListColumn(s, x, a) && v.Values?
    requires forall e :: e in v.elems ==> HasKey(s, s[a.t].props[a.c], e)
    requires NameAt(s, x, a.t, a.r) !in ItemNames(s, s[a.t].props[a.c], v, top, 0)
    requires Refill(s, Do(x, a, ClearItems), a, s[a.t].props[a.c], v, pol, 0, top).Ok?
    ensures var p := s[a.t].props[a.c]; var y := Refill(s, Do(x, a, ClearItems), a, p, v, pol, 0, top).st;
      && Holds(s, y, p, Items(y, a), v.elems)
      && EditsAt(y.log, a) == EditsAt(x.log, a) + ([ClearItems] + Plan([], Items(y, a), 0))
  {
    var z := Do(x, a, ClearItems);
    var y := Refill(s, z, a, s[a.t].props[a.c], v, pol, 0, top).st;
    ClearMidway(s, x, a, v.elems);
    RefillHolds(s, z, a, v, pol, 0, top);
    Assoc(EditsAt(x.log, a), [ClearItems], Plan([], Items(y, a), 0));
  }

  /** Assigning a sequence whose elements do not name the owner of the list: on success the
      list holds exactly what the elements denote, and the writes of this list were exactly
      the plan (in place) or a clear followed by one append per element (otherwise). */
  lemma AssignHolds(s: Schema, x: State, a: Addr, v: Value, pol: Policy, top: bool)
    requires ListColumn(s, x, a) && v.Values?
    requires forall e :: e in v.elems ==> HasKey(s, s[a.t].props[a.c], e)
    requires NameAt(s, x, a.t, a.r) !in PropNames(s, s[a.t].props[a.c], v, top)
    requires Assign(s, x, a, s[a.t].props[a.c], v, pol, top).Ok?
    ensures var p := s[a.t].props[a.c]; var y := Assign(s, x, a, p, v, pol, top).st;
      && Holds(s, y, p, Items(y, a), v.elems)
      && EditsAt(y.log, a) == EditsAt(x.log, a) +
           (if pol == UpdateModified then Plan(Items(x, a), Items(y, a), 0) else [ClearItems] + Plan([], Items(y, a), 0))
  {
    if pol == UpdateModified {
      InPlaceHolds(s, x, a, Items(x, a), v, 0, top);
    } else {
      ClearAndRefillHolds(s, x, a, v, pol, top);
    }
  }

  // ----- the plan

  function Replay(x: Cell, edits: seq<Edit>): Cell
    decreases |edits|
  {
    if edits == [] then x else Replay(Edited(x, edits[0]), edits[1..])
  }

  lemma {:induction false} ReplayDrops(items: seq<Cell>, i: nat)
    requires i <= |items|
    ensures Replay(CList(items), Drops(|items|, i)) == CList(items[..i])
    decreases |items|
  {
    if i < |items| {
      var n := |items|;
      assert Edited(CList(items), DropItem(n - 1)) == CList(items[..n - 1]);
      assert Drops(n, i)[1..] == Drops(n - 1, i);
      ReplayDrops(items[..n - 1], i);
      assert items[..n - 1][..i] == items[..i];
    } else {
      assert items[..i] == items;
    }
  }

  lemma {:induction false} ReplayPlan(prev: seq<Cell>, next: seq<Cell>, i: nat, items: seq<Cell>)
    requires i <= |next| && |items| == (if i < |prev| then |prev| else i)
    requires items[..i] == next[..i] && forall j :: i <= j < |prev| ==> items[j] == prev[j]
    ensures Replay(CList(items), Plan(prev, next, i)) == CList(next)
    decreases |next| - i
  {
    if i == |next| {
      if i < |prev| {
        ReplayDrops(items, i);
      }
      assert next[..i] == next;
      assert i >= |prev| ==> items[..i] == items;
    } else {
      var items' := if i < |prev| then items[i := next[i]] else items + [next[i]];
      var piece := Piece(prev, i, next[i]);
      assert items'[..i + 1] == next[..i] + [next[i]] == next[..i + 1];
      if piece != [] {
        assert Edited(CList(items), piece[0]) == CList(items');
        assert (piece + Plan(prev, next, i + 1))[1..] == Plan(prev, next, i + 1);
      } else {
        assert items' == items;
        assert piece + Plan(prev, next, i + 1) == Plan(prev, next, i + 1);
      }
      ReplayPlan(prev, next, i + 1, items');
    }
  }

  /** The number of common positions from `i` on that differ. */
  function Differing(prev: seq<Cell>, next: seq<Cell>, i: nat): nat
    decreases |next| - i
  {
    if i >= |prev| || i >= |next| then 0
    else (if Differs(prev[i], next[i]) then 1 else 0) + Differing(prev, next, i + 1)
  }

  function Puts(edits: seq<Edit>): nat {
    if edits == [] then 0 else (if edits[0].PutItem? then 1 else 0) + Puts(edits[1..])
  }

  function Adds(edits: seq<Edit>): nat {
    if edits == [] then 0 else (if edits[0].AddItem? then 1 else 0) + Adds(edits[1..])
  }

  lemma {:induction false} DropsCounts(sz: nat, i: nat)
    ensures var d := Drops(sz, i); Puts(d) == 0 && Adds(d) == 0 && |d| == (if i < sz then sz - i else 0)
    decreases sz
  {
    if i < sz {
      DropsCounts(sz - 1, i);
      assert Drops(sz, i)[1..] == Drops(sz - 1, i);
    }
  }

  lemma {:induction false} PlanCountsFrom(prev: seq<Cell>, next: seq<Cell>, i: nat)
    requires i <= |next|
    ensures var plan := Plan(prev, next, i);
      && Puts(plan) == Differing(prev, next, i)
      && Adds(plan) == (if |prev| <= i then |next| - i else if |prev| < |next| then |next| - |prev| else 0)
      && |plan| == Puts(plan) + Adds(plan) + (if |next| < |prev| then |prev| - |next| else 0)
    decreases |next| - i
  {
    if i == |next| {
      DropsCounts(|prev|, i);
    } else {
      PlanCountsFrom(prev, next, i + 1);
      var piece := Piece(prev, i, next[i]);
      if piece != [] {
        assert (piece + Plan(prev, next, i + 1))[1..] == Plan(prev, next, i + 1);
      } else {
        assert piece + Plan(prev, next, i + 1) == Plan(prev, next, i + 1);
      }
    }
  }

  /** The plan turns the old list into the new one with one set per differing common
      position, max(0, n - sz) additions and max(0, sz - n) removals, and nothing else. */
  lemma PlanIsMinimal(prev: seq<Cell>, next: seq<Cell>)
    ensures var plan := Plan(prev, next, 0);
      && Replay(CList(prev), plan) == CList(next)
      && Puts(plan) == Differing(prev, next, 0)
      && Adds(plan) == (if |prev| < |next| then |next| - |prev| else 0)
      && |plan| - Puts(plan) - Adds(plan) == (if |next| < |prev| then |prev| - |next| else 0)
  {
    ReplayPlan(prev, next, 0, prev);
    PlanCountsFrom(prev, next, 0);
  }
}
