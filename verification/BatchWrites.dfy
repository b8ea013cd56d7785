// `Results::set_property_value` for every column: which rows it writes, what they show
// afterwards, and that it touches nothing else.
module BatchWrites {
  import opened Options
  import opened PropertyTypes
  import opened Store
  import opened Engine
  import opened Framing
  import opened FrameProofs
  import opened Policies
  import opened CreateRules
  import opened Keeping
  import opened Reading
  import opened ReadBack
  import opened Idempotence
  import opened Validation
  import opened PropertyWrites
  import opened Runs

  // ----- what a batch write leaves alone

  /** The cells of `x` apart from column `c` of the given rows. */
  ghost function Others(x: State, t: nat, rows: seq<nat>, c: nat): State {
    State(x.rows, map a | a in x.cells && !(a.t == t && a.c == c && a.r in rows) :: x.cells[a], [])
  }

  lemma OthersSafe(s: Schema, x: State, t: nat, rows: seq<nat>, c: nat)
    requires Wf(s, x)
    ensures Safe(s, Others(x, t, rows, c), ForceCreate) && Keeps(Others(x, t, rows, c), x)
  {
    assert forall u {:trigger Count(x, u)} :: Count(Others(x, t, rows, c), u) <= Count(x, u);
  }

  lemma {:induction false} BatchFromKeeps(s: Schema, b: State, x: State, t: nat, rows: seq<nat>, c: nat, v: Value, i: nat)
    requires Wf(s, x) && t < |s| && c < |s[t].props| && s[t].pk != Some(c) && i <= |rows|
    requires Keeps(b, x) && Safe(s, b, ForceCreate) && forall j :: i <= j < |rows| ==> Addr(t, rows[j], c) !in b.cells
    ensures Keeps(b, BatchFrom(s, x, t, rows, c, v, i).st)
    decreases |rows| - i
  {
    if i < |rows| && rows[i] < Count(x, t) {
      var r := SetProp(s, x, t, rows[i], c, v, ForceCreate, false, true);
      SetPropKeeps(s, b, x, t, rows[i], c, v, ForceCreate, false, true);
      SetPropFrame(s, x, t, rows[i], c, v, ForceCreate, false, true);
      if r.Ok? {
        BatchFromKeeps(s, b, r.st, t, rows, c, v, i + 1);
      }
    }
  }

  /** A batch write, whether it returns or raises, changes no existing cell other than the
      property in the rows that matched. */
  lemma BatchTouchesOnlyTheMatches(s: Schema, x: State, t: nat, query: (State, nat) -> bool, c: nat, v: Value, a: Addr)
    requires Wf(s, x) && t < |s| && a in x.cells && !(a.t == t && a.c == c && query(x, a.r))
    ensures var y := Batch(s, x, t, Snapshot(x, t, query, 0), c, v).st; a in y.cells && Get(y, a) == Get(x, a)
  {
    var rows := Snapshot(x, t, query, 0);
    if c < |s[t].props| && s[t].pk != Some(c) {
      OthersSafe(s, x, t, rows, c);
      forall j | 0 <= j < |rows| ensures Addr(t, rows[j], c) !in Others(x, t, rows, c).cells {
        assert rows[j] in rows;
      }
      BatchFromKeeps(s, Others(x, t, rows, c), x, t, rows, c, v, 0);
      assert a in Others(x, t, rows, c).cells;
    }
  }

  // ----- what the rows show

  /** Nothing nested in the value has a key: managed objects, null, scalars, lists of these,
      and unmanaged objects of types without a key. */
  ghost predicate Keyless(s: Schema, names: set<Name>) {
    forall n :: n in names ==> n.t < |s| && s[n.t].pk.None?
  }

  lemma KeylessSteady(s: Schema, x: State, y: State, names: set<Name>)
    requires Keyless(s, names) && KeysStable(s, x, y)
    ensures Steady(s, x, y, names)
  {
    assert forall t: nat, key: Cell :: Name(t, key) in names ==> t < |s| && s[t].pk.None?;
    assert SteadyRows(s, x, y, names);
    forall t, r | 0 <= t < |s| && s[t].pk.Some? ensures NameAt(s, x, t, r) !in names {
      assert NameAt(s, x, t, r).t == t;
    }
    assert SteadyCells(s, x, y, names);
  }

  ghost function ShowingRow(s: Schema, x: State, t: nat, row: nat, c: nat, v: Value): iset<State>
    requires t < |s| && c < |s[t].props|
  {
    iset y: State | ShowsValue(s, x, y, s[t].props[c], Get(x, Addr(t, row, c)), Get(y, Addr(t, row, c)), v, true)
  }

  /** The property of the row shows the value, seen from `x`. */
  ghost predicate RowShows(s: Schema, x: State, y: State, t: nat, row: nat, c: nat, v: Value)
    requires t < |s| && c < |s[t].props|
  {
    y in ShowingRow(s, x, t, row, c, v)
  }

  /** The rows are different, and exist. */
  predicate DifferentRows(x: State, t: nat, rows: seq<nat>) {
    && (forall j :: 0 <= j < |rows| ==> rows[j] < Count(x, t))
    && (forall j, k :: 0 <= j < k < |rows| ==> rows[j] != rows[k])
  }

  lemma SetPropKeepsOthers(s: Schema, x: State, t: nat, row: nat, c: nat, v: Value, a: Addr)
    requires Wf(s, x) && t < |s| && c < |s[t].props| && s[t].pk != Some(c) && row < Count(x, t)
    requires a in x.cells && a != Addr(t, row, c)
    ensures Get(SetProp(s, x, t, row, c, v, ForceCreate, false, true).st, a) == Get(x, a)
  {
    OthersSafe(s, x, t, [row], c);
    SetPropKeeps(s, Others(x, t, [row], c), x, t, row, c, v, ForceCreate, false, true);
    assert a in Others(x, t, [row], c).cells;
  }

  /** What row `row` shows in `z` it shows in `y`, if `y` keeps all of `z` but the property in
      other rows that existed before. */
  lemma ShowsOn(s: Schema, x: State, z: State, y: State, t: nat, row: nat, c: nat, v: Value, rows: seq<nat>)
    requires Wf(s, z) && t < |s| && c < |s[t].props| && row < Count(z, t) && row !in rows
    requires RowShows(s, x, z, t, row, c, v) && Keyless(s, PropNames(s, s[t].props[c], v, true))
    requires KeysStable(s, z, y) && Keeps(Others(z, t, rows, c), y) && forall j :: 0 <= j < |rows| ==> rows[j] < Count(x, t)
    ensures RowShows(s, x, y, t, row, c, v)
  {
    var names := PropNames(s, s[t].props[c], v, true);
    var b := Others(z, t, rows, c);
    var a := Addr(t, row, c);
    assert a in b.cells;
    KeylessSteady(s, z, y, names);
    SteadyRefl(s, x, names);
    forall e: Addr | e.t < |s| && s[e.t].pk.None? && Count(x, e.t) <= e.r < Count(z, e.t) && e.c < |s[e.t].props|
      ensures Get(y, e) == Get(z, e)
    {
      assert e in b.cells;
    }
    assert SparedCells(s, x, z, y);
    ValueStable(s, x, x, z, y, s[t].props[c], Get(x, a), Get(z, a), v, true, names);
  }

  lemma FirstRowShows(s: Schema, x: State, t: nat, rows: seq<nat>, c: nat, v: Value, i: nat)
    requires Wf(s, x) && t < |s| && c < |s[t].props| && s[t].pk != Some(c) && i < |rows| && DifferentRows(x, t, rows)
    requires PropFresh(s, s[t].props[c], v, true, NoRepeatedKeys) && Keyless(s, PropNames(s, s[t].props[c], v, true))
    requires SetProp(s, x, t, rows[i], c, v, ForceCreate, false, true).Ok?
    ensures var z := SetProp(s, x, t, rows[i], c, v, ForceCreate, false, true).st;
      RowShows(s, x, BatchFrom(s, z, t, rows, c, v, i + 1).st, t, rows[i], c, v)
  {
    var z := SetProp(s, x, t, rows[i], c, v, ForceCreate, false, true).st;
    SetPropFrame(s, x, t, rows[i], c, v, ForceCreate, false, true);
    SetPropForced(s, x, t, rows[i], c, v, false, true);
    SetPropShows(s, x, t, rows[i], c, v, false, true);
    BatchRestKeeps(s, z, t, rows, c, v, i + 1);
    ShowsOn(s, x, z, BatchFrom(s, z, t, rows, c, v, i + 1).st, t, rows[i], c, v, rows[i + 1..]);
  }

  /** The first row is set, then the others. */
  lemma {:induction false} BatchFromShows(s: Schema, x: State, t: nat, rows: seq<nat>, c: nat, v: Value, i: nat, j: nat)
    requires Wf(s, x) && t < |s| && c < |s[t].props| && s[t].pk != Some(c) && i <= j < |rows| && DifferentRows(x, t, rows)
    requires PropFresh(s, s[t].props[c], v, true, NoRepeatedKeys) && Keyless(s, PropNames(s, s[t].props[c], v, true))
    requires BatchFrom(s, x, t, rows, c, v, i).Ok?
    ensures RowShows(s, x, BatchFrom(s, x, t, rows, c, v, i).st, t, rows[j], c, v)
    decreases |rows| - i
  {
    var z := SetProp(s, x, t, rows[i], c, v, ForceCreate, false, true).st;
    BatchStep(s, x, t, rows, c, v, i);
    if i == j {
      FirstRowShows(s, x, t, rows, c, v, i);
    } else {
      BatchFromShows(s, z, t, rows, c, v, i + 1, j);
      SetPropKeepsOthers(s, x, t, rows[i], c, v, Addr(t, rows[j], c));
      RebaseRowShows(s, x, z, BatchFrom(s, z, t, rows, c, v, i + 1).st, t, rows[j], c, v);
    }
  }

  lemma BatchStep(s: Schema, x: State, t: nat, rows: seq<nat>, c: nat, v: Value, i: nat)
    requires Wf(s, x) && t < |s| && c < |s[t].props| && s[t].pk != Some(c) && i < |rows| && DifferentRows(x, t, rows)
    requires BatchFrom(s, x, t, rows, c, v, i).Ok?
    ensures var r := SetProp(s, x, t, rows[i], c, v, ForceCreate, false, true);
      && r.Ok? && Wf(s, r.st) && KeysStable(s, x, r.st) && DifferentRows(r.st, t, rows)
      && BatchFrom(s, x, t, rows, c, v, i) == BatchFrom(s, r.st, t, rows, c, v, i + 1)
  {
    var r := SetProp(s, x, t, rows[i], c, v, ForceCreate, false, true);
    SetPropFrame(s, x, t, rows[i], c, v, ForceCreate, false, true);
    assert Count(x, t) <= Count(r.st, t);
  }

  lemma RebaseRowShows(s: Schema, x: State, z: State, y: State, t: nat, row: nat, c: nat, v: Value)
    requires t < |s| && c < |s[t].props| && RowShows(s, z, y, t, row, c, v) && Keyless(s, PropNames(s, s[t].props[c], v, true))
    requires KeysStable(s, x, z) && Get(z, Addr(t, row, c)) == Get(x, Addr(t, row, c))
    ensures RowShows(s, x, y, t, row, c, v)
  {
    var p := s[t].props[c];
    var names := PropNames(s, p, v, true);
    KeylessSteady(s, x, z, names);
    RebaseBetween(s, x, z, y, names);
    ValueStable(s, x, z, y, y, p, Get(z, Addr(t, row, c)), Get(y, Addr(t, row, c)), v, true, names);
  }

  lemma BatchRestKeeps(s: Schema, z: State, t: nat, rows: seq<nat>, c: nat, v: Value, i: nat)
    requires Wf(s, z) && t < |s| && c < |s[t].props| && s[t].pk != Some(c) && i <= |rows|
    ensures var y := BatchFrom(s, z, t, rows, c, v, i).st; Keeps(Others(z, t, rows[i..], c), y) && KeysStable(s, z, y)
  {
    OthersSafe(s, z, t, rows[i..], c);
    forall j | i <= j < |rows| ensures Addr(t, rows[j], c) !in Others(z, t, rows[i..], c).cells {
      assert rows[i..][j - i] == rows[j];
    }
    BatchFromKeeps(s, Others(z, t, rows[i..], c), z, t, rows, c, v, i);
    BatchFromKeys(s, z, t, rows, c, v, i);
  }

  lemma {:induction false} BatchCounts(s: Schema, x: State, t: nat, rows: seq<nat>, c: nat, v: Value, i: nat)
    requires t < |s| && c < |s[t].props| && i <= |rows| && BatchFrom(s, x, t, rows, c, v, i).Ok?
    ensures BatchFrom(s, x, t, rows, c, v, i).val == |rows|
    decreases |rows| - i
  {
    if i < |rows| {
      BatchCounts(s, SetProp(s, x, t, rows[i], c, v, ForceCreate, false, true).st, t, rows, c, v, i + 1);
    }
  }

  lemma SnapshotRows(x: State, t: nat, query: (State, nat) -> bool)
    ensures DifferentRows(x, t, Snapshot(x, t, query, 0))
  {
    var rows := Snapshot(x, t, query, 0);
    forall j | 0 <= j < |rows| ensures rows[j] < Count(x, t) {
      assert rows[j] in rows;
    }
  }

  /** A successful batch write leaves the value showing in the property of every row that
      matched at the start, and reports how many those were. Each row gets objects of its own
      where the value describes objects without a key. */
  lemma BatchShowsTheMatches(s: Schema, x: State, t: nat, query: (State, nat) -> bool, c: nat, v: Value, row: nat)
    requires Wf(s, x) && t < |s| && c < |s[t].props| && row < Count(x, t) && query(x, row)
    requires PropFresh(s, s[t].props[c], v, true, NoRepeatedKeys) && Keyless(s, PropNames(s, s[t].props[c], v, true))
    requires Batch(s, x, t, Snapshot(x, t, query, 0), c, v).Ok?
    ensures var q := Batch(s, x, t, Snapshot(x, t, query, 0), c, v);
      RowShows(s, x, q.st, t, row, c, v) && q.val == |Snapshot(x, t, query, 0)|
  {
    var rows := Snapshot(x, t, query, 0);
    assert row in rows;
    var j :| 0 <= j < |rows| && rows[j] == row;
    SnapshotRows(x, t, query);
    BatchFromShows(s, x, t, rows, c, v, 0, j);
    BatchCounts(s, x, t, rows, c, v, 0);
  }

  // ----- values without unmanaged objects

  lemma {:induction false} BatchFromPlain(s: Schema, x: State, t: nat, rows: seq<nat>, c: nat, v: Value, i: nat)
    requires Wf(s, x) && t < |s| && c < |s[t].props| && s[t].pk != Some(c) && i <= |rows|
    requires (forall j :: 0 <= j < |rows| ==> rows[j] < Count(x, t)) && PlainValue(s[t].props[c], v)
    ensures BatchFrom(s, x, t, rows, c, v, i).Ok? <==> i == |rows| || PlainFits(s, x, s[t].props[c], v)
    decreases |rows| - i
  {
    if i < |rows| {
      var p := s[t].props[c];
      var r := SetPropertyValue(s, x, t, rows[i], c, v, ForceCreate);
      SetPlain(s, x, t, rows[i], c, v, ForceCreate, t, Addr(t, rows[i], c));
      if p.ty.base == Object {
        SetPlain(s, x, t, rows[i], c, v, ForceCreate, p.target, Addr(t, rows[i], c));
      }
      if r.Ok? {
        assert PlainFits(s, r.st, p, v) by { SameFits(s, x, r.st, p, v); }
        BatchFromPlain(s, r.st, t, rows, c, v, i + 1);
      }
    }
  }

  lemma SameFits(s: Schema, x: State, y: State, p: Property, v: Value)
    requires ValidProperty(|s|, p) && (p.ty.base == Object ==> Count(x, p.target) == Count(y, p.target))
    ensures PlainFits(s, x, p, v) <==> PlainFits(s, y, p, v)
  {
    assert forall w: Value {:trigger PlainItemFits(s, x, p, w)} {:trigger PlainItemFits(s, y, p, w)} ::
      PlainItemFits(s, x, p, w) <==> PlainItemFits(s, y, p, w);
  }

  /** A batch write of scalars, null, managed objects or lists of these succeeds if and only
      if the value fits or nothing matched; then every row that matched at the start reads
      the value, for every column, and the result is the number of matches. */
  lemma BatchSetsTheMatches(s: Schema, x: State, t: nat, query: (State, nat) -> bool, c: nat, v: Value, row: nat)
    requires Wf(s, x) && t < |s| && c < |s[t].props| && s[t].pk != Some(c) && PlainValue(s[t].props[c], v)
    ensures var rows := Snapshot(x, t, query, 0); var q := Batch(s, x, t, rows, c, v);
      && (q.Ok? <==> rows == [] || PlainFits(s, x, s[t].props[c], v))
      && (q.Ok? ==> q.val == |rows|)
      && (q.Ok? && row < Count(x, t) && query(x, row) ==> ReadProperty(s, q.st, t, row, c) == AsRead(s[t].props[c], v))
  {
    var p := s[t].props[c];
    var rows := Snapshot(x, t, query, 0);
    var q := Batch(s, x, t, rows, c, v);
    SnapshotRows(x, t, query);
    BatchFromPlain(s, x, t, rows, c, v, 0);
    if q.Ok? {
      BatchCounts(s, x, t, rows, c, v, 0);
      if row < Count(x, t) && query(x, row) {
        PlainFresh(s, p, v, NoRepeatedKeys);
        BatchShowsTheMatches(s, x, t, query, c, v, row);
        RowReads(s, x, q.st, t, row, c, v);
      }
    }
  }

  lemma RowReads(s: Schema, x: State, y: State, t: nat, row: nat, c: nat, v: Value)
    requires t < |s| && c < |s[t].props| && PlainValue(s[t].props[c], v) && RowShows(s, x, y, t, row, c, v)
    ensures ReadProperty(s, y, t, row, c) == AsRead(s[t].props[c], v)
  {
    var p := s[t].props[c];
    if !(p.ty.list && v.Null?) {
      ShownIsRead(s, x, y, p, Get(x, Addr(t, row, c)), Get(y, Addr(t, row, c)), v, true);
    }
  }

  /** A link to a new object with a key takes the key. */
  lemma LinkTakesKey(s: Schema, x: State, t: nat, row: nat, c: nat, v: Value)
    requires Wf(s, x) && t < |s| && c < |s[t].props| && s[t].pk != Some(c) && row < Count(x, t)
    requires var p := s[t].props[c]; p.ty.base == Object && !p.ty.list && s[p.target].pk.Some? && v.Unmanaged?
    requires SetProp(s, x, t, row, c, v, ForceCreate, false, true).Ok?
    ensures var p := s[t].props[c]; var y := SetProp(s, x, t, row, c, v, ForceCreate, false, true).st;
      KeyOf(s, p.target, v).Good? && Find(s, y, p.target, KeyOf(s, p.target, v).val).Some?
  {
    var p := s[t].props[c];
    var a := Addr(t, row, c);
    var cur := LinkedRow(Get(x, a));
    var u := Create(s, x, p.target, v, ForceCreate, cur, true);
    assert SetProp(s, x, t, row, c, v, ForceCreate, false, true) == Update(s, x, a, p, v, ForceCreate, true);
    assert UnboxItem(s, x, p, v, ForceCreate, cur, true).Ok?;
    CreateFinds(s, x, p.target, v, ForceCreate, cur, true);
    CreateFrame(s, x, p.target, v, ForceCreate, cur, true);
    DoFrame(s, u.st, a, SetTo(CLink(u.val)));
    FindStable(s, u.st, Do(u.st, a, SetTo(CLink(u.val))), p.target, KeyOf(s, p.target, v).val);
  }

  lemma TakenKeyRaises(s: Schema, x: State, t: nat, row: nat, c: nat, v: Value)
    requires t < |s| && c < |s[t].props|
    requires var p := s[t].props[c]; p.ty.base == Object && !p.ty.list && s[p.target].pk.Some? && v.Unmanaged?
    requires var u := s[t].props[c].target; KeyOf(s, u, v).Good? && Find(s, x, u, KeyOf(s, u, v).val).Some?
    ensures var p := s[t].props[c];
      SetProp(s, x, t, row, c, v, ForceCreate, false, true) == Err(x, DuplicateKey(p.target, KeyOf(s, p.target, v).val))
  {
    var p := s[t].props[c];
    assert UnboxItem(s, x, p, v, ForceCreate, LinkedRow(Get(x, Addr(t, row, c))), true) == Err(x, DuplicateKey(p.target, KeyOf(s, p.target, v).val));
  }

  /** An unmanaged object with a key can be given to one row only: with two or more matches
      the second row raises, because the first has taken the key. */
  lemma BatchOfOneObjectRaises(s: Schema, x: State, t: nat, rows: seq<nat>, c: nat, v: Value)
    requires Wf(s, x) && t < |s| && c < |s[t].props| && s[t].pk != Some(c) && DifferentRows(x, t, rows) && |rows| >= 2
    requires var p := s[t].props[c]; p.ty.base == Object && !p.ty.list && s[p.target].pk.Some? && v.Unmanaged?
    ensures Batch(s, x, t, rows, c, v).Err?
  {
    var r := SetProp(s, x, t, rows[0], c, v, ForceCreate, false, true);
    if r.Ok? {
      LinkTakesKey(s, x, t, rows[0], c, v);
      TakenKeyRaises(s, r.st, t, rows[1], c, v);
      assert BatchFrom(s, r.st, t, rows, c, v, 1).Err?;
    }
  }
}
