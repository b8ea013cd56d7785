// `UpdateModified` refines `UpdateAll`: comparing before writing changes nothing but
// the number of writes, for values whose nested objects have keys and do not name their
// own ancestors.
module Policies {
  import opened Options
  import opened PropertyTypes
  import opened Store
  import opened Engine
  import opened Framing
  import opened FrameProofs

  // ----- trees without repeated names

  /** What a value must not name. */
  datatype Rule =
    | NoAncestors    // nested objects are of keyed types, and none has the name of an ancestor
    | NoRepeats      // moreover, no name occurs twice in the whole tree
    | NoRepeatedKeys // no name of a keyed type occurs twice; types without a key are allowed

  /** The sets have no name of a keyed type in common. */
  predicate Distinct(s: Schema, m: set<Name>, n: set<Name>) {
    forall k {:trigger k in m} :: k in m && k in n ==> k.t < |s| && s[k.t].pk.None?
  }

  /** No object nested in the value has the name of one of its ancestors, and what else the
      rule says. */
  predicate Fresh(s: Schema, t: nat, v: Value, top: bool, rule: Rule)
    requires t < |s|
    decreases top, v, 2, 0
  {
    v.Unmanaged? && KeyOf(s, t, v).Good? ==>
      && (rule != NoRepeatedKeys || s[t].pk.Some? ==> Name(t, KeyOf(s, t, v).val) !in FieldNames(s, t, v, top, 0))
      && FieldsFresh(s, t, v, top, rule, 0)
  }

  predicate FieldsFresh(s: Schema, t: nat, v: Value, top: bool, rule: Rule, i: nat)
    requires t < |s| && i <= |s[t].props|
    decreases top, v, 1, |s[t].props| - i
  {
    i == |s[t].props| ||
    ( && FreshAt(s, t, v, top, rule, i)
      && (rule != NoAncestors ==> Distinct(s, NamesAt(s, t, v, top, i), FieldNames(s, t, v, top, i + 1)))
      && FieldsFresh(s, t, v, top, rule, i + 1))
  }

  predicate FreshAt(s: Schema, t: nat, v: Value, top: bool, rule: Rule, i: nat)
    requires t < |s| && i < |s[t].props|
    decreases top, v, 0, 0
  {
    var f := Supplied(s, t, v, i, top);
    s[t].pk == Some(i) || f.Absent? || PropFresh(s, s[t].props[i], f.value, SubTop(v, i, top), rule)
  }

  predicate PropFresh(s: Schema, p: Property, v: Value, top: bool, rule: Rule)
    requires ValidProperty(|s|, p)
    decreases top, v, 5, 0
  {
    if p.ty.list then v.Values? ==> ItemsFresh(s, p, v, top, rule, 0) else ElemFresh(s, p, v, top, rule)
  }

  predicate ItemsFresh(s: Schema, p: Property, v: Value, top: bool, rule: Rule, i: nat)
    requires ValidProperty(|s|, p) && v.Values? && i <= |v.elems|
    decreases top, v, 4, |v.elems| - i
  {
    i == |v.elems| ||
    ( && ElemFresh(s, p, v.elems[i], top, rule)
      && (rule != NoAncestors ==> Distinct(s, ElemNames(s, p, v.elems[i], top), ItemNames(s, p, v, top, i + 1)))
      && ItemsFresh(s, p, v, top, rule, i + 1))
  }

  predicate ElemFresh(s: Schema, p: Property, v: Value, top: bool, rule: Rule)
    requires ValidProperty(|s|, p)
    decreases top, v, 3, 0
  {
    p.ty.base == Object ==> (v.Unmanaged? ==> rule == NoRepeatedKeys || s[p.target].pk.Some?) && Fresh(s, p.target, v, top, rule)
  }

  // ----- states that agree outside some cells

  ghost function AgreeingOutside(s: Schema, cells: set<Addr>): iset<(State, State)> {
    iset f: (State, State) |
      && Wf(s, f.0) && Wf(s, f.1)
      && f.0.rows == f.1.rows
      && (forall a {:trigger Get(f.0, a)} {:trigger Get(f.1, a)} :: a !in cells ==> Get(f.0, a) == Get(f.1, a))
  }

  ghost predicate Agree(s: Schema, x: State, y: State, cells: set<Addr>) {
    (x, y) in AgreeingOutside(s, cells)
  }

  /** The states in which the cells are not key cells, and their rows have none of the names. */
  ghost function StatesApart(s: Schema, cells: set<Addr>, names: set<Name>): iset<State> {
    iset x: State | forall a {:trigger a in cells} :: a in cells ==>
      a in x.cells && a.t < |s| && s[a.t].pk != Some(a.c) && NameAt(s, x, a.t, a.r) !in names
  }

  ghost predicate Apart(s: Schema, x: State, cells: set<Addr>, names: set<Name>) {
    x in StatesApart(s, cells, names)
  }

  lemma StillApart(s: Schema, x: State, y: State, m: set<Name>, o: Own, cells: set<Addr>, names: set<Name>)
    requires Wf(s, x) && Frame(s, x, y, m, o) && Apart(s, x, cells, names)
    ensures Apart(s, y, cells, names)
  {
    forall a | a in cells
      ensures a in y.cells && a.t < |s| && s[a.t].pk != Some(a.c) && NameAt(s, y, a.t, a.r) !in names
    {
      assert a in y.cells;
      assert NameAt(s, y, a.t, a.r) == NameAt(s, x, a.t, a.r);
    }
  }

  lemma ApartLess(s: Schema, x: State, cells: set<Addr>, names: set<Name>, fewer: set<Name>)
    requires Apart(s, x, cells, names) && fewer <= names
    ensures Apart(s, x, cells, fewer)
  {
  }

  lemma Unchanged(s: Schema, x: State, y: State, m: set<Name>, o: Own, a: Addr)
    requires Wf(s, x) && Frame(s, x, y, m, o) && a in x.cells && NameAt(s, x, a.t, a.r) !in m && !InOwn(a, o)
    ensures a in y.cells && Get(y, a) == Get(x, a) && NameAt(s, y, a.t, a.r) == NameAt(s, x, a.t, a.r)
  {
  }

  lemma AgreeKeys(s: Schema, x: State, y: State, cells: set<Addr>, names: set<Name>, t: nat)
    requires Agree(s, x, y, cells) && Apart(s, x, cells, names) && t < |s|
    ensures forall r {:trigger KeyAt(s, x, t, r)} {:trigger KeyAt(s, y, t, r)} :: KeyAt(s, x, t, r) == KeyAt(s, y, t, r)
  {
    forall r ensures KeyAt(s, x, t, r) == KeyAt(s, y, t, r) {
      if s[t].pk.Some? {
        var a := Addr(t, r, s[t].pk.value);
        assert a !in cells;
      }
    }
  }

  lemma AgreeFind(s: Schema, x: State, y: State, cells: set<Addr>, names: set<Name>, t: nat, key: Cell)
    requires Agree(s, x, y, cells) && Apart(s, x, cells, names) && t < |s| && s[t].pk.Some?
    ensures Find(s, x, t, key) == Find(s, y, t, key)
  {
    AgreeKeys(s, x, y, cells, names, t);
    assert Count(x, t) == Count(y, t);
    var f, g := Find(s, x, t, key), Find(s, y, t, key);
    if f.Some? {
      assert KeyAt(s, y, t, f.value) == key;
    }
    if g.Some? {
      assert KeyAt(s, x, t, g.value) == key;
    }
  }

  lemma AgreeAddRow(s: Schema, x: State, y: State, cells: set<Addr>, t: nat, init: seq<Cell>)
    requires Agree(s, x, y, cells) && t < |s| && |init| == |s[t].props|
    requires forall c :: 0 <= c < |init| && s[t].props[c].ty.list ==> init[c].CList?
    ensures Agree(s, AddRow(x, t, init), AddRow(y, t, init), cells)
  {
    AddRowWf(s, x, t, init);
    AddRowWf(s, y, t, init);
    var x', y' := AddRow(x, t, init), AddRow(y, t, init);
    forall a | a !in cells ensures Get(x', a) == Get(y', a) {
      assert a in x.cells <==> a in y.cells;
      assert a in x'.cells <==> a in y'.cells;
      assert Get(x, a) == Get(y, a);
    }
  }

  /** Writing the same content into the same cell; the cell may have differed before. */
  lemma AgreeAfter(s: Schema, x: State, y: State, x': State, y': State, cells: set<Addr>, a: Addr)
    requires Agree(s, x, y, cells + {a}) && Wf(s, x') && Wf(s, y')
    requires x'.rows == x.rows && y'.rows == y.rows
    requires forall b {:trigger Get(x', b)} :: b != a ==> Get(x', b) == Get(x, b)
    requires forall b {:trigger Get(y', b)} :: b != a ==> Get(y', b) == Get(y, b)
    requires Get(x', a) == Get(y', a)
    ensures Agree(s, x', y', cells)
  {
    forall b | b !in cells ensures Get(x', b) == Get(y', b) {
      if b != a {
        assert b !in cells + {a};
        assert Get(x, b) == Get(y, b);
      }
    }
  }

  lemma AgreeWeaken(s: Schema, x: State, y: State, cells: set<Addr>, more: set<Addr>)
    requires Agree(s, x, y, cells) && cells <= more
    ensures Agree(s, x, y, more)
  {
  }

  // ----- the simulation

  /** The same outcome and as many rows, and on success states that agree outside `cells`. */
  ghost predicate Same<T>(s: Schema, p: Res<T>, q: Res<T>, cells: set<Addr>) {
    p.Outcome() == q.Outcome() && p.st.rows == q.st.rows && (p.Ok? ==> Agree(s, p.st, q.st, cells))
  }

  lemma LocateSame(s: Schema, x: State, y: State, t: nat, v: Value, cur: Option<nat>, cur': Option<nat>, cells: set<Addr>, names: set<Name>)
    requires Agree(s, x, y, cells) && Apart(s, x, cells, names) && t < |s| && (s[t].pk.Some? || cur.None?)
    ensures Same(s, Locate(s, x, t, v, UpdateModified, cur), Locate(s, y, t, v, UpdateAll, cur'), cells)
  {
    if s[t].pk.None? {
      AgreeAddRow(s, x, y, cells, t, InitialRow(s[t].props));
    } else if KeyOf(s, t, v).Good? {
      var key := KeyOf(s, t, v).val;
      AgreeFind(s, x, y, cells, names, t, key);
      if Find(s, x, t, key).None? {
        AgreeAddRow(s, x, y, cells, t, InitialRow(s[t].props)[s[t].pk.value := key]);
      }
    }
  }

  /** Two states that agree outside `cells`, about to write into row `row` of table `t`
      a value with the given names, none of which is the name of that row. */
  ghost function ReadyPairs(s: Schema, t: nat, row: nat, cells: set<Addr>, names: set<Name>): iset<(State, State)>
    requires t < |s|
  {
    iset f: (State, State) |
      && Agree(s, f.0, f.1, cells) && row < Count(f.0, t)
      && NameAt(s, f.0, t, row) !in names
      && Apart(s, f.0, cells, {NameAt(s, f.0, t, row)} + names)
  }

  ghost predicate Ready(s: Schema, x: State, y: State, t: nat, row: nat, cells: set<Addr>, names: set<Name>)
    requires t < |s|
  {
    (x, y) in ReadyPairs(s, t, row, cells, names)
  }

  lemma ReadyLess(s: Schema, x: State, y: State, t: nat, row: nat, cells: set<Addr>, names: set<Name>, fewer: set<Name>)
    requires t < |s| && Ready(s, x, y, t, row, cells, names) && fewer <= names
    ensures Ready(s, x, y, t, row, cells, fewer)
  {
    ApartLess(s, x, cells, {NameAt(s, x, t, row)} + names, {NameAt(s, x, t, row)} + fewer);
  }

  lemma StillReady(s: Schema, x: State, y: State, x': State, y': State, t: nat, row: nat, m: set<Name>, o: Own, cells: set<Addr>, names: set<Name>)
    requires t < |s| && Ready(s, x, y, t, row, cells, names) && Frame(s, x, x', m, o) && Agree(s, x', y', cells)
    ensures Ready(s, x', y', t, row, cells, names)
  {
    assert NameAt(s, x', t, row) == NameAt(s, x, t, row);
    StillApart(s, x, x', m, o, cells, {NameAt(s, x, t, row)} + names);
  }

  lemma {:induction false} CreateSame(s: Schema, x: State, y: State, t: nat, v: Value,
                                      cur: Option<nat>, cur': Option<nat>, top: bool, cells: set<Addr>)
    requires Agree(s, x, y, cells) && t < |s| && (s[t].pk.Some? || cur.None?)
    requires Apart(s, x, cells, Names(s, t, v, top)) && Fresh(s, t, v, top, NoAncestors)
    ensures Same(s, Create(s, x, t, v, UpdateModified, cur, top), Create(s, y, t, v, UpdateAll, cur', top), cells)
    decreases top, v, 5, 0
  {
    var l, m := Locate(s, x, t, v, UpdateModified, cur), Locate(s, y, t, v, UpdateAll, cur');
    LocateSame(s, x, y, t, v, cur, cur', cells, Names(s, t, v, top));
    if v.Unmanaged? && l.Ok? {
      LocateReady(s, x, m.st, t, v, cur, top, cells);
      PopulateSame(s, l.st, m.st, t, l.val, v, top, 0, cells);
    }
  }

  lemma LocateReady(s: Schema, x: State, y': State, t: nat, v: Value, cur: Option<nat>, top: bool, cells: set<Addr>)
    requires Wf(s, x) && t < |s| && v.Unmanaged? && Locate(s, x, t, v, UpdateModified, cur).Ok?
    requires Apart(s, x, cells, Names(s, t, v, top)) && Fresh(s, t, v, top, NoAncestors)
    requires Agree(s, Locate(s, x, t, v, UpdateModified, cur).st, y', cells)
    ensures var l := Locate(s, x, t, v, UpdateModified, cur);
      Ready(s, l.st, y', t, l.val.row, cells, FieldNames(s, t, v, top, 0))
  {
    var l := Locate(s, x, t, v, UpdateModified, cur);
    var n := Name(t, KeyOf(s, t, v).val);
    LocateFrame(s, x, t, v, UpdateModified, cur);
    StillApart(s, x, l.st, {n}, NOTHING, cells, Names(s, t, v, top));
    assert NameAt(s, l.st, t, l.val.row) == n;
    assert {n} + FieldNames(s, t, v, top, 0) == Names(s, t, v, top);
  }

  ghost function InStepPairs(s: Schema, t: nat, row: nat, v: Value, top: bool, i: nat, cells: set<Addr>): iset<(State, State)>
    requires t < |s| && i <= |s[t].props|
  {
    iset f: (State, State) |
      Ready(s, f.0, f.1, t, row, cells, FieldNames(s, t, v, top, i)) && FieldsFresh(s, t, v, top, NoAncestors, i)
  }

  /** Two states that agree outside `cells`, about to set the properties from `i` on. */
  ghost predicate InStep(s: Schema, x: State, y: State, t: nat, row: nat, v: Value, top: bool, i: nat, cells: set<Addr>)
    requires t < |s| && i <= |s[t].props|
  {
    (x, y) in InStepPairs(s, t, row, v, top, i, cells)
  }

  lemma {:induction false} PopulateSame(s: Schema, x: State, y: State, t: nat, slot: Slot, v: Value, top: bool, i: nat, cells: set<Addr>)
    requires t < |s| && i <= |s[t].props| && InStep(s, x, y, t, slot.row, v, top, i, cells)
    ensures Same(s, Populate(s, x, t, slot, v, UpdateModified, top, i), Populate(s, y, t, slot, v, UpdateAll, top, i), cells)
    decreases top, v, 4, |s[t].props| - i, 0
  {
    if i == |s[t].props| {
      InStepAgree(s, x, y, t, slot.row, v, top, i, cells);
    } else {
      PopulateIs(s, x, t, slot, v, UpdateModified, top, i);
      PopulateIs(s, y, t, slot, v, UpdateAll, top, i);
      PopulateOneStep(s, x, y, t, slot, v, top, i, cells);
      if PopulateOne(s, x, t, slot, v, UpdateModified, top, i).Ok? {
        PopulateRest(s, x, y, t, slot, v, top, i, cells);
      }
    }
  }

  lemma {:induction false} PopulateRest(s: Schema, x: State, y: State, t: nat, slot: Slot, v: Value, top: bool, i: nat, cells: set<Addr>)
    requires t < |s| && i < |s[t].props|
    requires InStep(s, PopulateOne(s, x, t, slot, v, UpdateModified, top, i).st, PopulateOne(s, y, t, slot, v, UpdateAll, top, i).st,
                    t, slot.row, v, top, i + 1, cells)
    ensures var l := PopulateOne(s, x, t, slot, v, UpdateModified, top, i).st; var m := PopulateOne(s, y, t, slot, v, UpdateAll, top, i).st;
      Same(s, Populate(s, l, t, slot, v, UpdateModified, top, i + 1), Populate(s, m, t, slot, v, UpdateAll, top, i + 1), cells)
    decreases top, v, 4, |s[t].props| - i - 1, 1
  {
    PopulateSame(s, PopulateOne(s, x, t, slot, v, UpdateModified, top, i).st, PopulateOne(s, y, t, slot, v, UpdateAll, top, i).st,
                 t, slot, v, top, i + 1, cells);
  }

  lemma InStepAgree(s: Schema, x: State, y: State, t: nat, row: nat, v: Value, top: bool, i: nat, cells: set<Addr>)
    requires t < |s| && i <= |s[t].props| && InStep(s, x, y, t, row, v, top, i, cells)
    ensures Agree(s, x, y, cells)
  {
  }

  lemma {:induction false} PopulateOneStep(s: Schema, x: State, y: State, t: nat, slot: Slot, v: Value, top: bool, i: nat, cells: set<Addr>)
    requires t < |s| && i < |s[t].props| && InStep(s, x, y, t, slot.row, v, top, i, cells)
    ensures var l := PopulateOne(s, x, t, slot, v, UpdateModified, top, i); var m := PopulateOne(s, y, t, slot, v, UpdateAll, top, i);
      && l.Outcome() == m.Outcome() && l.st.rows == m.st.rows
      && (l.Ok? ==> InStep(s, l.st, m.st, t, slot.row, v, top, i + 1, cells))
    decreases top, v, 3, 1
  {
    var l, m := PopulateOne(s, x, t, slot, v, UpdateModified, top, i), PopulateOne(s, y, t, slot, v, UpdateAll, top, i);
    ReadyLess(s, x, y, t, slot.row, cells, FieldNames(s, t, v, top, i), NamesAt(s, t, v, top, i));
    PopulateOneSame(s, x, y, t, slot, v, top, i, cells);
    if l.Ok? {
      PopulateOneReady(s, x, y, m.st, t, slot, v, top, i, cells);
    }
  }

  lemma PopulateOneReady(s: Schema, x: State, y: State, y': State, t: nat, slot: Slot, v: Value, top: bool, i: nat, cells: set<Addr>)
    requires t < |s| && i < |s[t].props|
    requires Ready(s, x, y, t, slot.row, cells, FieldNames(s, t, v, top, i))
    requires Agree(s, PopulateOne(s, x, t, slot, v, UpdateModified, top, i).st, y', cells)
    ensures Ready(s, PopulateOne(s, x, t, slot, v, UpdateModified, top, i).st, y', t, slot.row, cells, FieldNames(s, t, v, top, i + 1))
  {
    var x' := PopulateOne(s, x, t, slot, v, UpdateModified, top, i).st;
    PopulateOneFrame(s, x, t, slot, v, UpdateModified, top, i);
    StillReady(s, x, y, x', y', t, slot.row, NamesAt(s, t, v, top, i), Own(t, slot.row, i, i + 1), cells, FieldNames(s, t, v, top, i));
    ReadyLess(s, x', y', t, slot.row, cells, FieldNames(s, t, v, top, i), FieldNames(s, t, v, top, i + 1));
  }

  lemma PopulateIs(s: Schema, x: State, t: nat, slot: Slot, v: Value, pol: Policy, top: bool, i: nat)
    requires t < |s| && i < |s[t].props|
    ensures var l := PopulateOne(s, x, t, slot, v, pol, top, i);
      Populate(s, x, t, slot, v, pol, top, i) == if l.Ok? then Populate(s, l.st, t, slot, v, pol, top, i + 1) else Err(l.st, l.error)
  {
  }

  lemma {:induction false} PopulateOneSame(s: Schema, x: State, y: State, t: nat, slot: Slot, v: Value, top: bool, i: nat, cells: set<Addr>)
    requires t < |s| && i < |s[t].props|
    requires Ready(s, x, y, t, slot.row, cells, NamesAt(s, t, v, top, i)) && FreshAt(s, t, v, top, NoAncestors, i)
    ensures Same(s, PopulateOne(s, x, t, slot, v, UpdateModified, top, i), PopulateOne(s, y, t, slot, v, UpdateAll, top, i), cells)
    decreases top, v, 3, 0
  {
    var f := Supplied(s, t, v, i, top);
    if s[t].pk != Some(i) && f.Given? {
      SetPropSame(s, x, y, t, slot.row, i, f.value, FieldOf(v, i).Absent?, SubTop(v, i, top), cells);
    }
  }

  /** A cell about to be written, in a row that the written value does not name. */
  ghost predicate Target(s: Schema, x: State, y: State, a: Addr, cells: set<Addr>, names: set<Name>) {
    && Agree(s, x, y, cells) && a in x.cells && a.t < |s| && a !in cells
    && s[a.t].pk != Some(a.c)
    && NameAt(s, x, a.t, a.r) !in names
    && Apart(s, x, cells, names)
  }

  lemma ReadyTarget(s: Schema, x: State, y: State, a: Addr, cells: set<Addr>, names: set<Name>)
    requires a.t < |s| && a.c < |s[a.t].props| && s[a.t].pk != Some(a.c) && Ready(s, x, y, a.t, a.r, cells, names)
    ensures Target(s, x, y, a, cells, names)
  {
    ApartLess(s, x, cells, {NameAt(s, x, a.t, a.r)} + names, names);
  }

  lemma {:induction false} SetPropSame(s: Schema, x: State, y: State, t: nat, row: nat, c: nat, v: Value,
                                       isDefault: bool, top: bool, cells: set<Addr>)
    requires t < |s| && c < |s[t].props| && s[t].pk != Some(c)
    requires Ready(s, x, y, t, row, cells, PropNames(s, s[t].props[c], v, top)) && PropFresh(s, s[t].props[c], v, top, NoAncestors)
    ensures Same(s, SetProp(s, x, t, row, c, v, UpdateModified, isDefault, top),
                 SetProp(s, y, t, row, c, v, UpdateAll, isDefault, top), cells)
    decreases top, v, 9, 0
  {
    var p := s[t].props[c];
    var a := Addr(t, row, c);
    ReadyTarget(s, x, y, a, cells, PropNames(s, p, v, top));
    if p.ty.nullable && v.Null? {
      SetNullSame(s, x, y, a, isDefault, cells);
    } else if p.ty.list {
      if p.ty.base != LinkingObjects {
        AssignSame(s, x, y, a, v, top, cells);
      }
    } else {
      UpdateSame(s, x, y, a, v, top, cells);
    }
  }

  lemma SetNullSame(s: Schema, x: State, y: State, a: Addr, isDefault: bool, cells: set<Addr>)
    requires Target(s, x, y, a, cells, {})
    ensures var ty := s[a.t].props[a.c].ty;
      Same(s, SetNull(x, a, ty, UpdateModified, isDefault), SetNull(y, a, ty, UpdateAll, isDefault), cells)
  {
    var ty := s[a.t].props[a.c].ty;
    var x' := SetNull(x, a, ty, UpdateModified, isDefault).st;
    var y' := SetNull(y, a, ty, UpdateAll, isDefault).st;
    if !ty.list && !(ty.base == Object && isDefault) {
      DoWf(s, x, a, SetTo(CNull));
      DoWf(s, y, a, SetTo(CNull));
      AgreeWeaken(s, x, y, cells, cells + {a});
      AgreeAfter(s, x, y, x', y', cells, a);
    }
  }

  lemma {:induction false} UpdateSame(s: Schema, x: State, y: State, a: Addr, v: Value, top: bool, cells: set<Addr>)
    requires a.t < |s| && a.c < |s[a.t].props| && !s[a.t].props[a.c].ty.list
    requires Target(s, x, y, a, cells, ElemNames(s, s[a.t].props[a.c], v, top))
    requires ElemFresh(s, s[a.t].props[a.c], v, top, NoAncestors)
    ensures var p := s[a.t].props[a.c];
      Same(s, Update(s, x, a, p, v, UpdateModified, top), Update(s, y, a, p, v, UpdateAll, top), cells)
    decreases top, v, 8, 0
  {
    var p := s[a.t].props[a.c];
    var names := ElemNames(s, p, v, top);
    assert Get(x, a) == Get(y, a);
    var cur := LinkedRow(Get(x, a));
    var l, m := UnboxItem(s, x, p, v, UpdateModified, cur, top), UnboxItem(s, y, p, v, UpdateAll, cur, top);
    UnboxItemSame(s, x, y, p, v, cur, cur, top, cells);
    UnboxItemFrame(s, x, p, v, UpdateModified, cur, top);
    if l.Ok? {
      Unchanged(s, x, l.st, names, NOTHING, a);
      WriteBackSame(s, l.st, m.st, a, l.val, cells);
    }
  }

  lemma WriteBackSame(s: Schema, x: State, y: State, a: Addr, item: Cell, cells: set<Addr>)
    requires Agree(s, x, y, cells) && a in x.cells && a.t < |s| && !s[a.t].props[a.c].ty.list
    ensures Agree(s, WriteBack(x, a, Get(x, a), item, UpdateModified), WriteBack(y, a, Get(x, a), item, UpdateAll), cells)
  {
    DoWf(s, x, a, SetTo(item));
    DoWf(s, y, a, SetTo(item));
    AgreeWeaken(s, x, y, cells, cells + {a});
    AgreeAfter(s, x, y, WriteBack(x, a, Get(x, a), item, UpdateModified), WriteBack(y, a, Get(x, a), item, UpdateAll), cells, a);
  }

  lemma {:induction false} UnboxItemSame(s: Schema, x: State, y: State, p: Property, v: Value, cur: Option<nat>, cur': Option<nat>,
                                         top: bool, cells: set<Addr>)
    requires Agree(s, x, y, cells) && ValidProperty(|s|, p)
    requires Apart(s, x, cells, ElemNames(s, p, v, top)) && ElemFresh(s, p, v, top, NoAncestors)
    ensures Same(s, UnboxItem(s, x, p, v, UpdateModified, cur, top), UnboxItem(s, y, p, v, UpdateAll, cur', top), cells)
    decreases top, v, 6, 0
  {
    if p.ty.base == Object && v.Unmanaged? {
      CreateSame(s, x, y, p.target, v, cur, cur', top, cells);
    } else {
      assert Count(x, p.target) == Count(y, p.target);
    }
  }

  // ----- lists

  lemma {:induction false} AssignSame(s: Schema, x: State, y: State, a: Addr, v: Value, top: bool, cells: set<Addr>)
    requires a.t < |s| && a.c < |s[a.t].props| && s[a.t].props[a.c].ty.list
    requires Target(s, x, y, a, cells, PropNames(s, s[a.t].props[a.c], v, top))
    requires PropFresh(s, s[a.t].props[a.c], v, top, NoAncestors)
    ensures var p := s[a.t].props[a.c];
      Same(s, Assign(s, x, a, p, v, UpdateModified, top), Assign(s, y, a, p, v, UpdateAll, top), cells)
    decreases top, v, 8, 0
  {
    if v.Null? {
      ClearBothSame(s, x, y, a, cells);
    } else if v.Values? {
      StartFilling(s, x, y, a, cells, PropNames(s, s[a.t].props[a.c], v, top));
      FillSame(s, x, Do(y, a, ClearItems), a, v, 0, |Items(x, a)|, top, cells);
    }
  }

  lemma ClearBothSame(s: Schema, x: State, y: State, a: Addr, cells: set<Addr>)
    requires Agree(s, x, y, cells) && a in x.cells
    ensures Agree(s, Do(x, a, ClearItems), Do(y, a, ClearItems), cells)
  {
    DoWf(s, x, a, ClearItems);
    DoWf(s, y, a, ClearItems);
    AgreeWeaken(s, x, y, cells, cells + {a});
    AgreeAfter(s, x, y, Do(x, a, ClearItems), Do(y, a, ClearItems), cells, a);
  }

  lemma ClearSame(s: Schema, x: State, y: State, a: Addr, cells: set<Addr>)
    requires Agree(s, x, y, cells) && a in x.cells && Wf(s, Do(y, a, ClearItems))
    ensures Agree(s, x, Do(y, a, ClearItems), cells + {a})
  {
    var y' := Do(y, a, ClearItems);
    forall b | b !in cells + {a} ensures Get(x, b) == Get(y', b) {
      assert Get(x, b) == Get(y, b);
    }
  }

  lemma StartFilling(s: Schema, x: State, y: State, a: Addr, cells: set<Addr>, names: set<Name>)
    requires Target(s, x, y, a, cells, names) && s[a.t].props[a.c].ty.list
    ensures Filling(s, x, Do(y, a, ClearItems), a, 0, |Items(x, a)|, cells, names)
  {
    DoWf(s, y, a, ClearItems);
    ClearSame(s, x, y, a, cells);
  }

  ghost function FillingPairs(s: Schema, a: Addr, i: nat, sz: nat, cells: set<Addr>, names: set<Name>): iset<(State, State)> {
    iset f: (State, State) |
      && ListColumn(s, f.0, a) && a !in cells
      && Agree(s, f.0, f.1, cells + {a})
      && Apart(s, f.0, cells + {a}, names)
      && Get(f.1, a).CList?
      && |Items(f.0, a)| == (if i < sz then sz else i)
      && Items(f.1, a) == Items(f.0, a)[..i]
  }

  /** The in-place list is ahead of the refilled one by its old tail only. */
  ghost predicate Filling(s: Schema, x: State, y: State, a: Addr, i: nat, sz: nat, cells: set<Addr>, names: set<Name>) {
    (x, y) in FillingPairs(s, a, i, sz, cells, names)
  }

  lemma {:induction false} FillSame(s: Schema, x: State, y: State, a: Addr, v: Value, i: nat, sz: nat, top: bool, cells: set<Addr>)
    requires a.t < |s| && a.c < |s[a.t].props| && v.Values? && i <= |v.elems|
    requires Filling(s, x, y, a, i, sz, cells, ItemNames(s, s[a.t].props[a.c], v, top, i))
    requires ItemsFresh(s, s[a.t].props[a.c], v, top, NoAncestors, i)
    ensures var p := s[a.t].props[a.c];
      Same(s, AssignInPlace(s, x, a, p, v, i, sz, top), Refill(s, y, a, p, v, UpdateAll, i, top), cells)
    decreases top, v, 7, |v.elems| - i
  {
    var p := s[a.t].props[a.c];
    if i == |v.elems| {
      TrimSame(s, x, y, a, i, sz, cells);
    } else {
      var e := v.elems[i];
      var l, m := Place(s, x, a, p, e, i, sz, top), UnboxItem(s, y, p, e, UpdateAll, Some(0), top);
      PlaceSame(s, x, y, a, e, i, sz, top, cells, ItemNames(s, p, v, top, i + 1));
      if l.Ok? {
        FillSame(s, l.st, Do(m.st, a, AddItem(m.val)), a, v, i + 1, sz, top, cells);
      }
    }
  }

  /** The state after an element has been put at position `i`. */
  function AfterPut(x: State, a: Addr, i: nat, sz: nat, item: Cell): State
    requires i < sz ==> i < |Items(x, a)|
  {
    if i < sz then PutIfDifferent(x, a, i, Items(x, a)[i], item).st else Do(x, a, AddItem(item))
  }

  lemma PlaceIs(s: Schema, x: State, a: Addr, p: Property, e: Value, i: nat, sz: nat, top: bool)
    requires ValidProperty(|s|, p) && (i < sz ==> i < |Items(x, a)|)
    ensures var u := UnboxItem(s, x, p, e, UpdateModified, if i < sz then LinkedRow(Items(x, a)[i]) else Some(0), top);
      var l := Place(s, x, a, p, e, i, sz, top);
      && (u.Err? ==> l == Err(u.st, u.error))
      && (u.Ok? && Items(u.st, a) == Items(x, a) ==> l == Ok(AfterPut(u.st, a, i, sz, u.val), a.r))
  {
  }

  /** One element: set in place or appended on one side, appended on the other. */
  lemma {:induction false} PlaceSame(s: Schema, x: State, y: State, a: Addr, e: Value, i: nat, sz: nat, top: bool,
                                     cells: set<Addr>, names: set<Name>)
    requires a.t < |s| && a.c < |s[a.t].props|
    requires Filling(s, x, y, a, i, sz, cells, ElemNames(s, s[a.t].props[a.c], e, top) + names)
    requires ElemFresh(s, s[a.t].props[a.c], e, top, NoAncestors)
    ensures var p := s[a.t].props[a.c];
      var l := Place(s, x, a, p, e, i, sz, top); var m := UnboxItem(s, y, p, e, UpdateAll, Some(0), top);
      && l.Ok? == m.Ok?
      && (l.Err? ==> l.error == m.error && l.st.rows == m.st.rows)
      && (l.Ok? ==> Filling(s, l.st, Do(m.st, a, AddItem(m.val)), a, i + 1, sz, cells, names))
    decreases top, e, 8, 0
  {
    var p := s[a.t].props[a.c];
    var m := UnboxItem(s, y, p, e, UpdateAll, Some(0), top);
    var cur := if i < sz then LinkedRow(Items(x, a)[i]) else Some(0);
    var u := UnboxItem(s, x, p, e, UpdateModified, cur, top);
    var own := ElemNames(s, p, e, top);
    PlaceIs(s, x, a, p, e, i, sz, top);
    ApartLess(s, x, cells + {a}, own + names, own);
    UnboxItemSame(s, x, y, p, e, cur, Some(0), top, cells + {a});
    if u.Ok? {
      UnboxItemFrame(s, x, p, e, UpdateModified, cur, top);
      UnboxItemFrame(s, y, p, e, UpdateAll, Some(0), top);
      KeepsFilling(s, x, y, u.st, m.st, a, i, sz, own, cells, names);
      PutSame(s, u.st, m.st, a, i, sz, u.val, cells, names);
    }
  }

  /** Unboxing an element touches neither list. */
  lemma KeepsFilling(s: Schema, x: State, y: State, x': State, y': State, a: Addr, i: nat, sz: nat,
                     own: set<Name>, cells: set<Addr>, names: set<Name>)
    requires Filling(s, x, y, a, i, sz, cells, own + names)
    requires Frame(s, x, x', own, NOTHING) && Frame(s, y, y', own, NOTHING) && Agree(s, x', y', cells + {a})
    ensures Get(x', a) == Get(x, a) && Filling(s, x', y', a, i, sz, cells, names)
  {
    assert a in cells + {a};
    AgreeName(s, x, y, a, cells + {a}, own + names);
    StillApart(s, x, x', own, NOTHING, cells + {a}, own + names);
    ApartLess(s, x', cells + {a}, own + names, names);
    Unchanged(s, x, x', own, NOTHING, a);
    Unchanged(s, y, y', own, NOTHING, a);
    MakeFilling(s, x', y', a, i, sz, cells, names);
  }

  lemma AgreeName(s: Schema, x: State, y: State, a: Addr, cells: set<Addr>, names: set<Name>)
    requires Agree(s, x, y, cells) && Apart(s, x, cells, names) && a in x.cells && a.t < |s|
    ensures a in y.cells && NameAt(s, y, a.t, a.r) == NameAt(s, x, a.t, a.r)
  {
    AgreeKeys(s, x, y, cells, names, a.t);
  }

  lemma PutSame(s: Schema, x: State, y: State, a: Addr, i: nat, sz: nat, item: Cell, cells: set<Addr>, names: set<Name>)
    requires Filling(s, x, y, a, i, sz, cells, names)
    ensures Filling(s, AfterPut(x, a, i, sz, item), Do(y, a, AddItem(item)), a, i + 1, sz, cells, names)
  {
    PutItems(s, x, a, i, sz, item);
    PutAgree(s, x, y, a, i, sz, item, cells, names);
    PutApart(s, x, y, a, i, sz, item, cells, names);
    MakeFilling(s, AfterPut(x, a, i, sz, item), Do(y, a, AddItem(item)), a, i + 1, sz, cells, names);
  }

  lemma MakeFilling(s: Schema, x: State, y: State, a: Addr, i: nat, sz: nat, cells: set<Addr>, names: set<Name>)
    requires ListColumn(s, x, a) && a !in cells && Agree(s, x, y, cells + {a}) && Apart(s, x, cells + {a}, names)
    requires Get(y, a).CList? && |Items(x, a)| == (if i < sz then sz else i) && Items(y, a) == Items(x, a)[..i]
    ensures Filling(s, x, y, a, i, sz, cells, names)
  {
  }

  lemma PutAgree(s: Schema, x: State, y: State, a: Addr, i: nat, sz: nat, item: Cell, cells: set<Addr>, names: set<Name>)
    requires Filling(s, x, y, a, i, sz, cells, names)
    ensures Agree(s, AfterPut(x, a, i, sz, item), Do(y, a, AddItem(item)), cells + {a})
  {
    PutItems(s, x, a, i, sz, item);
    DoWf(s, y, a, AddItem(item));
    OnlyAt(s, x, y, AfterPut(x, a, i, sz, item), Do(y, a, AddItem(item)), a, cells + {a});
  }

  lemma PutApart(s: Schema, x: State, y: State, a: Addr, i: nat, sz: nat, item: Cell, cells: set<Addr>, names: set<Name>)
    requires Filling(s, x, y, a, i, sz, cells, names)
    ensures Apart(s, AfterPut(x, a, i, sz, item), cells + {a}, names)
  {
    PutItems(s, x, a, i, sz, item);
    OnlyAtApart(s, x, AfterPut(x, a, i, sz, item), a, cells + {a}, names);
  }

  lemma PutItems(s: Schema, x: State, a: Addr, i: nat, sz: nat, item: Cell)
    requires ListColumn(s, x, a) && |Items(x, a)| == (if i < sz then sz else i)
    ensures var x' := AfterPut(x, a, i, sz, item);
      && Wf(s, x') && Get(x', a).CList?
      && |Items(x', a)| == (if i + 1 < sz then sz else i + 1)
      && Items(x', a)[..i + 1] == Items(x, a)[..i] + [item]
  {
    if i < sz {
      DoWf(s, x, a, PutItem(i, item));
    } else {
      DoWf(s, x, a, AddItem(item));
    }
  }

  lemma OnlyAt(s: Schema, x: State, y: State, x': State, y': State, a: Addr, cells: set<Addr>)
    requires Agree(s, x, y, cells) && a in cells && Wf(s, x') && Wf(s, y')
    requires x'.rows == x.rows && y'.rows == y.rows
    requires forall b {:trigger Get(x', b)} :: b != a ==> Get(x', b) == Get(x, b)
    requires forall b {:trigger Get(y', b)} :: b != a ==> Get(y', b) == Get(y, b)
    ensures Agree(s, x', y', cells)
  {
    forall b | b !in cells ensures Get(x', b) == Get(y', b) {
      assert Get(x, b) == Get(y, b);
    }
  }

  lemma OnlyAtApart(s: Schema, x: State, x': State, a: Addr, cells: set<Addr>, names: set<Name>)
    requires Wf(s, x) && Wf(s, x') && x'.rows == x.rows && Apart(s, x, cells, names) && a in cells
    requires forall b {:trigger Get(x', b)} :: b != a ==> Get(x', b) == Get(x, b)
    ensures Apart(s, x', cells, names)
  {
    forall b | b in cells ensures b in x'.cells && NameAt(s, x', b.t, b.r) !in names {
      assert NameAt(s, x', b.t, b.r) == NameAt(s, x, b.t, b.r);
    }
  }

  /** Trimming drops exactly the positions from `i` on. */
  lemma {:induction false} TrimSpec(x: State, a: Addr, i: nat, sz: nat)
    requires Get(x, a).CList? && |Items(x, a)| == (if i < sz then sz else i)
    ensures var r := Trim(x, a, i, sz);
      && r == Ok(r.st, a.r)
      && r.st.rows == x.rows
      && r.st.cells == x.cells[a := CList(Items(x, a)[..i])]
    decreases sz
  {
    if i < sz {
      var y := Do(x, a, DropItem(sz - 1));
      assert Items(y, a) == Items(x, a)[..sz - 1];
      assert Items(y, a)[..i] == Items(x, a)[..i];
      TrimSpec(y, a, i, sz - 1);
    } else {
      assert Items(x, a)[..i] == Items(x, a);
      assert Get(x, a) == CList(Items(x, a));
      assert a in x.cells;
      assert x.cells[a := CList(Items(x, a)[..i])] == x.cells;
    }
  }

  lemma TrimSame(s: Schema, x: State, y: State, a: Addr, i: nat, sz: nat, cells: set<Addr>)
    requires Filling(s, x, y, a, i, sz, cells, {})
    ensures Same(s, Trim(x, a, i, sz), Ok(y, a.r), cells)
  {
    TrimSpec(x, a, i, sz);
    TrimFrame(s, x, a, i, sz);
    AgreeAfter(s, x, y, Trim(x, a, i, sz).st, y, cells, a);
  }

  // ----- the theorem

  /** `create` with `UpdateModified` and with `UpdateAll` raise the same exception, or
      return the same row and leave the same database behind. Only an object of a type
      without a key that stands in for a current row must be left out. */
  lemma PoliciesAgree(s: Schema, x: State, t: nat, v: Value, cur: Option<nat>, cur': Option<nat>)
    requires Wf(s, x) && t < |s| && (s[t].pk.Some? || cur.None?) && Fresh(s, t, v, true, NoAncestors)
    ensures var p := Create(s, x, t, v, UpdateModified, cur, true); var q := Create(s, x, t, v, UpdateAll, cur', true);
      && p.Outcome() == q.Outcome() && p.st.rows == q.st.rows
      && (p.Ok? ==> SameContent(p.st, q.st))
  {
    assert Agree(s, x, x, {});
    CreateSame(s, x, x, t, v, cur, cur', true, {});
    var p, q := Create(s, x, t, v, UpdateModified, cur, true), Create(s, x, t, v, UpdateAll, cur', true);
    if p.Ok? {
      AgreeContent(s, p.st, q.st);
    }
  }

  lemma AgreeContent(s: Schema, x: State, y: State)
    requires Agree(s, x, y, {})
    ensures SameContent(x, y)
  {
    forall a | a in x.cells ensures a in y.cells && x.cells[a] == y.cells[a] {
      assert Get(x, a) == Get(y, a);
    }
  }
}
