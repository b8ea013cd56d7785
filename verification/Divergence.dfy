// Where the two update policies part: the conditions of the agreement theorem are needed.
module Divergence {
  import opened Options
  import opened PropertyTypes
  import opened Store
  import opened Engine

  const KEY := Property("key", PropertyType(Int, false, false), 0, Absent)

  function LinkTo(t: nat): Property {
    Property("next", PropertyType(Object, true, false), t, Absent)
  }

  // ----- a value that names one of its ancestors

  /** One keyed type whose objects link to each other. */
  const CHAIN: Schema := [ObjectSchema("Node", [KEY, LinkTo(0)], Some(0))]

  /** Row 0 has key 1 and links to row 1, which has key 2. */
  const TWO_NODES := State(
    map[0 := 2],
    map[Addr(0, 0, 0) := CPrim(IntV(1)), Addr(0, 0, 1) := CLink(1),
        Addr(0, 1, 0) := CPrim(IntV(2)), Addr(0, 1, 1) := CNull],
    [])

  function Node(key: int, next: Value): Value {
    Unmanaged([Given(Scalar(IntV(key))), Given(next)], false)
  }

  lemma CreateNode(st: State, r: nat, key: int, next: Value, pol: Policy, cur: Option<nat>)
    requires Find(CHAIN, st, 0, CPrim(IntV(key))) == Some(r) && pol != ForceCreate
    ensures var q := SetProp(CHAIN, st, 0, r, 1, next, pol, false, true);
      q.Ok? ==> Create(CHAIN, st, 0, Node(key, next), pol, cur, true) == Ok(q.st, r)
  {
    var v := Node(key, next);
    var slot := Slot(r, false);
    var q := SetProp(CHAIN, st, 0, r, 1, next, pol, false, true);
    assert FieldOf(v, 0) == Given(Scalar(IntV(key))) && FieldOf(v, 1) == Given(next);
    assert Locate(CHAIN, st, 0, v, pol, cur) == Ok(st, slot);
    assert PopulateOne(CHAIN, st, 0, slot, v, pol, true, 0) == Ok(st, r);
    assert PopulateOne(CHAIN, st, 0, slot, v, pol, true, 1) == q;
    assert q.Ok? ==> Populate(CHAIN, q.st, 0, slot, v, pol, true, 2) == Ok(q.st, r);
    assert q.Ok? ==> Populate(CHAIN, st, 0, slot, v, pol, true, 1) == Ok(q.st, r);
  }

  lemma LinkNode(st: State, r: nat, next: Value, pol: Policy)
    requires next.Unmanaged?
    ensures var a := Addr(0, r, 1);
      var q := Create(CHAIN, st, 0, next, pol, LinkedRow(Get(st, a)), true);
      q.Ok? ==> SetProp(CHAIN, st, 0, r, 1, next, pol, false, true) == Ok(WriteBack(q.st, a, Get(st, a), CLink(q.val), pol), r)
  {
    var a := Addr(0, r, 1);
    var q := Create(CHAIN, st, 0, next, pol, LinkedRow(Get(st, a)), true);
    var p := CHAIN[0].props[1];
    assert q.Ok? ==> UnboxItem(CHAIN, st, p, next, pol, LinkedRow(Get(st, a)), true) == Ok(q.st, CLink(q.val));
    assert SetProp(CHAIN, st, 0, r, 1, next, pol, false, true) == Update(CHAIN, st, a, p, next, pol, true);
  }

  /** The states in which row 0 has key 1 and row 1 has key 2. */
  predicate TwoKeys(st: State) {
    Count(st, 0) == 2 && Get(st, Addr(0, 0, 0)) == CPrim(IntV(1)) && Get(st, Addr(0, 1, 0)) == CPrim(IntV(2))
  }

  lemma FindKeys(st: State)
    requires TwoKeys(st)
    ensures Find(CHAIN, st, 0, CPrim(IntV(1))) == Some(0) && Find(CHAIN, st, 0, CPrim(IntV(2))) == Some(1)
  {
    assert KeyAt(CHAIN, st, 0, 0) == CPrim(IntV(1)) && KeyAt(CHAIN, st, 0, 1) == CPrim(IntV(2));
  }

  /** The innermost node clears the link of row 0, the middle one links row 1 to it. */
  lemma MiddleNode(pol: Policy, cur: Option<nat>)
    requires pol != ForceCreate
    ensures var q := Create(CHAIN, TWO_NODES, 0, Node(2, Node(1, Null)), pol, cur, true);
      q.Ok? && q.val == 1 && Get(q.st, Addr(0, 0, 1)) == CNull
  {
    var st := TWO_NODES;
    FindKeys(st);
    var st1 := Do(st, Addr(0, 0, 1), SetTo(CNull));
    assert SetProp(CHAIN, st, 0, 0, 1, Null, pol, false, true) == Ok(st1, 0);
    CreateNode(st, 0, 1, Null, pol, LinkedRow(Get(st, Addr(0, 1, 1))));
    LinkNode(st, 1, Node(1, Null), pol);
    CreateNode(st, 1, 2, Node(1, Null), pol, cur);
  }

  /** The link of row 0 is read before the innermost node clears it, so only `UpdateAll`
      restores it. */
  lemma NamedAncestorDiverges()
    ensures var v := Node(1, Node(2, Node(1, Null)));
      var p := Create(CHAIN, TWO_NODES, 0, v, UpdateModified, None, true);
      var q := Create(CHAIN, TWO_NODES, 0, v, UpdateAll, None, true);
      && p.Outcome() == Good(0) && q.Outcome() == Good(0)
      && Get(p.st, Addr(0, 0, 1)) == CNull
      && Get(q.st, Addr(0, 0, 1)) == CLink(1)
  {
    var next := Node(2, Node(1, Null));
    FindKeys(TWO_NODES);
    MiddleNode(UpdateModified, Some(1));
    MiddleNode(UpdateAll, Some(1));
    LinkNode(TWO_NODES, 0, next, UpdateModified);
    LinkNode(TWO_NODES, 0, next, UpdateAll);
    CreateNode(TWO_NODES, 0, 1, next, UpdateModified, None);
    CreateNode(TWO_NODES, 0, 1, next, UpdateAll, None);
  }

  // ----- a type without a key

  const PARENT: Schema := [
    ObjectSchema("Parent", [KEY, LinkTo(1)], Some(0)),
    ObjectSchema("Child", [Property("n", PropertyType(Int, false, false), 0, Absent)], None)]

  const ONE_CHILD := State(
    map[0 := 1, 1 := 1],
    map[Addr(0, 0, 0) := CPrim(IntV(1)), Addr(0, 0, 1) := CLink(0), Addr(1, 0, 0) := CPrim(IntV(5))],
    [])

  const SIX := Unmanaged([Given(Scalar(IntV(6)))], false)

  lemma CreateChild(st: State, slot: Slot, pol: Policy, cur: Option<nat>)
    requires Locate(PARENT, ONE_CHILD, 1, SIX, pol, cur) == Ok(st, slot)
    ensures var q := Create(PARENT, ONE_CHILD, 1, SIX, pol, cur, true);
      && q.Ok? && q.val == slot.row
      && q.st.rows == st.rows
  {
    var a := Addr(1, slot.row, 0);
    var p := PARENT[1].props[0];
    assert FieldOf(SIX, 0) == Given(Scalar(IntV(6)));
    assert UnboxItem(PARENT, st, p, Scalar(IntV(6)), pol, LinkedRow(Get(st, a)), true) == Ok(st, CPrim(IntV(6)));
    var q := Update(PARENT, st, a, p, Scalar(IntV(6)), pol, true);
    assert SetProp(PARENT, st, 1, slot.row, 0, Scalar(IntV(6)), pol, false, true) == q;
    assert PopulateOne(PARENT, st, 1, slot, SIX, pol, true, 0) == q;
    assert Populate(PARENT, q.st, 1, slot, SIX, pol, true, 1) == Ok(q.st, slot.row);
  }

  lemma CreateParent(pol: Policy)
    requires pol != ForceCreate && Create(PARENT, ONE_CHILD, 1, SIX, pol, Some(0), true).Ok?
    ensures var a := Addr(0, 0, 1);
      var q := Create(PARENT, ONE_CHILD, 1, SIX, pol, Some(0), true);
      var z := Ok(WriteBack(q.st, a, Get(ONE_CHILD, a), CLink(q.val), pol), 0);
      Create(PARENT, ONE_CHILD, 0, Node(1, SIX), pol, None, true) == z
  {
    var st := ONE_CHILD;
    var a := Addr(0, 0, 1);
    var v := Node(1, SIX);
    var slot := Slot(0, false);
    var q := Create(PARENT, st, 1, SIX, pol, Some(0), true);
    var p := PARENT[0].props[1];
    assert KeyAt(PARENT, st, 0, 0) == CPrim(IntV(1));
    assert FieldOf(v, 0) == Given(Scalar(IntV(1))) && FieldOf(v, 1) == Given(SIX);
    assert Locate(PARENT, st, 0, v, pol, None) == Ok(st, slot);
    assert UnboxItem(PARENT, st, p, SIX, pol, Some(0), true) == Ok(q.st, CLink(q.val));
    var u := Update(PARENT, st, a, p, SIX, pol, true);
    assert SetProp(PARENT, st, 0, 0, 1, SIX, pol, false, true) == u;
    assert PopulateOne(PARENT, st, 0, slot, v, pol, true, 0) == Ok(st, 0);
    assert PopulateOne(PARENT, st, 0, slot, v, pol, true, 1) == u;
    assert Populate(PARENT, u.st, 0, slot, v, pol, true, 2) == Ok(u.st, 0);
    assert Populate(PARENT, st, 0, slot, v, pol, true, 1) == Ok(u.st, 0);
  }

  /** Only `UpdateModified` reuses the row that is already linked, or given as the current
      row, when the type has no key. */
  lemma UnkeyedTypeDiverges()
    ensures var v := Node(1, SIX);
      var p := Create(PARENT, ONE_CHILD, 0, v, UpdateModified, None, true);
      var q := Create(PARENT, ONE_CHILD, 0, v, UpdateAll, None, true);
      && p.Outcome() == Good(0) && q.Outcome() == Good(0)
      && Count(p.st, 1) == 1
      && Count(q.st, 1) == 2 && Get(q.st, Addr(0, 0, 1)) == CLink(1)
    ensures Create(PARENT, ONE_CHILD, 1, SIX, UpdateModified, Some(0), true).Outcome() == Good(0)
    ensures Create(PARENT, ONE_CHILD, 1, SIX, UpdateAll, Some(0), true).Outcome() == Good(1)
  {
    CreateChild(ONE_CHILD, Slot(0, false), UpdateModified, Some(0));
    CreateChild(AddRow(ONE_CHILD, 1, InitialRow(PARENT[1].props)), Slot(1, true), UpdateAll, Some(0));
    CreateParent(UpdateModified);
    CreateParent(UpdateAll);
  }
}
