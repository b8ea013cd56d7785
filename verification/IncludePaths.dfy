// The walk that turns key paths into chains of links (keypath_helpers.hpp).
module IncludePaths {
  import opened Options

  datatype ColumnType = Link | LinkList | Other

  datatype Column = Column(kind: ColumnType, target: nat)

  /** The columns of each table. */
  type Tables = seq<seq<Column>>

  /** What the key path mapping makes of the next part of a path. Backlinks name the table
      and column they come from, and have the type of a link list. */
  datatype Element = Element(table: nat, col: Option<nat>, colType: ColumnType, isBacklink: bool)

  datatype PathError = MissingProperty | NotALink(table: nat, col: Option<nat>) | Unknown(part: nat)

  datatype Outcome<+T> = Ok(value: T) | Err(error: PathError)

  /** One part of a chain; `origin` is the table a backlink comes from. */
  datatype LinkPathPart = LinkPathPart(col: Option<nat>, origin: Option<nat>)

  datatype Step = Step(element: Element, index: nat)

  /** The mapping: from the current table, the path and the position in it, to the next
      element and the position after it. */
  type Mapping = (nat, seq<string>, nat) -> Outcome<Step>

  predicate IsLinkColumn(tables: Tables, t: nat, c: nat) {
    t < |tables| && c < |tables[t]| && tables[t][c].kind != Other
  }

  predicate IsLinkType(k: ColumnType) { k == Link || k == LinkList }

  /** A forward element is a column of the current table; a backlink names an origin column
      whose target is the current table. */
  predicate Fits(tables: Tables, cur: nat, e: Element) {
    if e.isBacklink then e.col.Some? && IsLinkColumn(tables, e.table, e.col.value) && tables[e.table][e.col.value].target == cur
    else e.table == cur && (e.col.Some? && IsLinkType(e.colType) ==> IsLinkColumn(tables, cur, e.col.value))
  }

  ghost predicate GoodMapping(tables: Tables, next: Mapping) {
    forall cur: nat, path: seq<string>, index: nat {:trigger next(cur, path, index)} :: next(cur, path, index).Ok? && index < |path| ==>
      && index < next(cur, path, index).value.index <= |path|
      && Fits(tables, cur, next(cur, path, index).value.element)
  }

  // ----- the meaning of a chain

  /** The table on the far side of a hop from `cur`, if the part is a hop from there. */
  function FarSide(tables: Tables, cur: nat, part: LinkPathPart): Option<nat> {
    match part.origin
    case Some(origin) =>
      if part.col.Some? && IsLinkColumn(tables, origin, part.col.value) && tables[origin][part.col.value].target == cur
      then Some(origin) else None
    case None =>
      if part.col.None? then Some(cur)
      else if IsLinkColumn(tables, cur, part.col.value) then Some(tables[cur][part.col.value].target)
      else None
  }

  /** The table that a chain of hops leads to. */
  function Destination(tables: Tables, base: nat, chain: seq<LinkPathPart>): Option<nat> {
    if chain == [] then Some(base)
    else
      match Destination(tables, base, chain[..|chain| - 1])
      case None => None
      case Some(t) => FarSide(tables, t, chain[|chain| - 1])
  }

  lemma DestinationStep(tables: Tables, base: nat, chain: seq<LinkPathPart>, cur: nat, part: LinkPathPart)
    requires Destination(tables, base, chain) == Some(cur)
    ensures Destination(tables, base, chain + [part]) == FarSide(tables, cur, part)
  {
    var longer := chain + [part];
    assert longer[..|longer| - 1] == chain;
  }

  // ----- the steps of a walk

  function PartOf(e: Element): LinkPathPart {
    LinkPathPart(e.col, if e.isBacklink then Some(e.table) else None)
  }

  /** One step: at position `i` of the path the mapping gives a link, `part`, which leads from
      `cur` to `after`; the path goes on at position `j`. */
  predicate StepsTo(tables: Tables, next: Mapping, path: seq<string>, cur: nat, i: nat, part: LinkPathPart, after: nat, j: nat) {
    && i < |path|
    && next(cur, path, i).Ok?
    && var step := next(cur, path, i).value;
    && IsLinkType(step.element.colType)
    && part == PartOf(step.element) && j == step.index
    && FarSide(tables, cur, part) == Some(after)
  }

  /** The mapping raises the error, or what it gives is not a link. */
  predicate FailsAt(next: Mapping, path: seq<string>, cur: nat, i: nat, e: PathError) {
    && i < |path|
    && match next(cur, path, i)
       case Err(error) => e == error
       case Ok(step) => !IsLinkType(step.element.colType) && e == NotALink(step.element.table, step.element.col)
  }

  /** The positions in the path and the tables that a walk passes through. */
  datatype Trace = Trace(positions: seq<nat>, tables: seq<nat>)

  /** The chain has one part for each step from the start of the path and the base table. */
  ghost predicate Follows(tables: Tables, next: Mapping, base: nat, path: seq<string>, tr: Trace, chain: seq<LinkPathPart>) {
    && |tr.positions| == |tr.tables| == |chain| + 1
    && tr.positions[0] == 0 && tr.tables[0] == base
    && forall k {:trigger chain[k]} :: 0 <= k < |chain| ==>
         StepsTo(tables, next, path, tr.tables[k], tr.positions[k], chain[k], tr.tables[k + 1], tr.positions[k + 1])
  }

  /** A chain whose steps use up the path, or the error of the first step that fails. */
  ghost predicate Explains(tables: Tables, next: Mapping, base: nat, path: seq<string>, o: Outcome<seq<LinkPathPart>>,
                           tr: Trace, chain: seq<LinkPathPart>) {
    && Follows(tables, next, base, path, tr, chain)
    && match o
       case Ok(links) => links == chain && tr.positions[|chain|] == |path|
       case Err(e) => FailsAt(next, path, tr.tables[|chain|], tr.positions[|chain|], e)
  }

  ghost predicate Explained(tables: Tables, next: Mapping, base: nat, path: seq<string>, o: Outcome<seq<LinkPathPart>>) {
    exists tr, chain :: Explains(tables, next, base, path, o, tr, chain)
  }

  lemma {:induction false} SameSteps(tables: Tables, next: Mapping, base: nat, path: seq<string>,
                                     tr: Trace, chain: seq<LinkPathPart>, tr': Trace, chain': seq<LinkPathPart>, k: nat)
    requires Follows(tables, next, base, path, tr, chain) && Follows(tables, next, base, path, tr', chain')
    requires k <= |chain| && k <= |chain'|
    ensures tr.positions[k] == tr'.positions[k] && tr.tables[k] == tr'.tables[k] && chain[..k] == chain'[..k]
  {
    if k > 0 {
      SameSteps(tables, next, base, path, tr, chain, tr', chain', k - 1);
      assert chain[k - 1] == chain'[k - 1];
      assert chain[..k] == chain[..k - 1] + [chain[k - 1]] && chain'[..k] == chain'[..k - 1] + [chain'[k - 1]];
    }
  }

  lemma NoFurther(tables: Tables, next: Mapping, base: nat, path: seq<string>, o: Outcome<seq<LinkPathPart>>,
                  tr: Trace, chain: seq<LinkPathPart>, tr': Trace, chain': seq<LinkPathPart>)
    requires Explains(tables, next, base, path, o, tr, chain) && Follows(tables, next, base, path, tr', chain')
    ensures |chain'| <= |chain|
  {
    if |chain| < |chain'| {
      var part := chain'[|chain|];
      SameSteps(tables, next, base, path, tr, chain, tr', chain', |chain|);
      assert false;
    }
  }

  /** The explanation leaves one outcome only. */
  lemma OutcomeIsUnique(tables: Tables, next: Mapping, base: nat, path: seq<string>,
                        o: Outcome<seq<LinkPathPart>>, o': Outcome<seq<LinkPathPart>>)
    requires Explained(tables, next, base, path, o) && Explained(tables, next, base, path, o')
    ensures o == o'
  {
    var tr, chain :| Explains(tables, next, base, path, o, tr, chain);
    var tr', chain' :| Explains(tables, next, base, path, o', tr', chain');
    NoFurther(tables, next, base, path, o, tr, chain, tr', chain');
    NoFurther(tables, next, base, path, o', tr', chain', tr, chain);
    SameSteps(tables, next, base, path, tr, chain, tr', chain', |chain|);
    assert chain[..|chain|] == chain && chain'[..|chain'|] == chain';
  }

  // ----- the walk

  /** The inner loop: one path. It decides between forward links and backlinks by comparing
      tables, and yet follows the far sides; the chain it returns leads to where it ended. */
  method WalkPath(tables: Tables, next: Mapping, base: nat, path: seq<string>) returns (o: Outcome<seq<LinkPathPart>>)
    requires GoodMapping(tables, next)
    ensures Explained(tables, next, base, path, o)
    ensures o.Ok? ==> Destination(tables, base, o.value).Some?
  {
    var index := 0;
    var links := [];
    var cur := base;
    ghost var tr := Trace([0], [base]);
    while index < |path|
      invariant 0 <= index <= |path|
      invariant Destination(tables, base, links) == Some(cur)
      invariant Follows(tables, next, base, path, tr, links)
      invariant tr.positions[|links|] == index && tr.tables[|links|] == cur
      decreases |path| - index
    {
      var step := next(cur, path, index);
      if step.Err? {
        o := Err(step.error);
        assert Explains(tables, next, base, path, o, tr, links);
        return;
      }
      var element := step.value.element;
      if element.colType != Link && element.colType != LinkList {
        o := Err(NotALink(element.table, element.col));
        assert Explains(tables, next, base, path, o, tr, links);
        return;
      }
      var part := LinkPathPart(element.col, if element.isBacklink then Some(element.table) else None);
      DestinationStep(tables, base, links, cur, part);
      ghost var from := cur;
      if element.table == cur {
        if element.col.Some? {
          // also the branch of a backlink from the current table to itself
          cur := tables[element.table][element.col.value].target;
        }
      } else {
        cur := element.table;
      }
      assert StepsTo(tables, next, path, from, index, part, cur, step.value.index);
      links := links + [part];
      index := step.value.index;
      tr := Trace(tr.positions + [index], tr.tables + [cur]);
    }
    o := Ok(links);
    assert Explains(tables, next, base, path, o, tr, links);
  }

  /** What the walks of all paths give: a chain each, or the first error. */
  ghost predicate Generated(tables: Tables, next: Mapping, split: string -> seq<string>, base: nat, paths: seq<string>,
                            o: Outcome<seq<seq<LinkPathPart>>>)
  {
    match o
    case Ok(chains) =>
      && |chains| == |paths|
      && forall i :: 0 <= i < |paths| ==> paths[i] != "" && Explained(tables, next, base, split(paths[i]), Ok(chains[i]))
    case Err(e) =>
      exists i :: 0 <= i < |paths| && FailsFirst(tables, next, split, base, paths, i, e)
  }

  ghost predicate Walkable(tables: Tables, next: Mapping, split: string -> seq<string>, base: nat, path: string) {
    path != "" && exists chain :: Explained(tables, next, base, split(path), Ok(chain))
  }

  ghost predicate FailsFirst(tables: Tables, next: Mapping, split: string -> seq<string>, base: nat, paths: seq<string>, i: nat, e: PathError)
    requires i < |paths|
  {
    && (forall k :: 0 <= k < i ==> Walkable(tables, next, split, base, paths[k]))
    && (if paths[i] == "" then e == MissingProperty else Explained(tables, next, base, split(paths[i]), Err(e)))
  }

  /** `generate_include_from_keypaths`: on success there is one chain of hops per path. */
  method Generate(tables: Tables, next: Mapping, split: string -> seq<string>, base: nat, paths: seq<string>)
      returns (o: Outcome<seq<seq<LinkPathPart>>>)
    requires GoodMapping(tables, next)
    ensures Generated(tables, next, split, base, paths, o)
    ensures o.Ok? ==> |o.value| == |paths| && forall i :: 0 <= i < |paths| ==> Destination(tables, base, o.value[i]).Some?
  {
    var properties := [];
    var i := 0;
    while i < |paths|
      invariant 0 <= i <= |paths| && |properties| == i
      invariant forall k :: 0 <= k < i ==> paths[k] != "" && Explained(tables, next, base, split(paths[k]), Ok(properties[k]))
      invariant forall k :: 0 <= k < i ==> Walkable(tables, next, split, base, paths[k])
      invariant forall k :: 0 <= k < i ==> Destination(tables, base, properties[k]).Some?
    {
      if |paths[i]| == 0 {
        assert FailsFirst(tables, next, split, base, paths, i, MissingProperty);
        return Err(MissingProperty);
      }
      var links := WalkPath(tables, next, base, split(paths[i]));
      if links.Err? {
        assert FailsFirst(tables, next, split, base, paths, i, links.error);
        return Err(links.error);
      }
      assert Walkable(tables, next, split, base, paths[i]);
      properties := properties + [links.value];
      i := i + 1;
    }
    return Ok(properties);
  }

  /** A forward link from one table to another, or a link of the other table backwards. */
  predicate IsHop(tables: Tables, from: nat, part: LinkPathPart, to: nat) {
    part.col.Some? &&
      match part.origin
      case None => IsLinkColumn(tables, from, part.col.value) && tables[from][part.col.value].target == to
      case Some(origin) => origin == to && IsLinkColumn(tables, to, part.col.value) && tables[to][part.col.value].target == from
  }

  /** Every part of a chain that leads somewhere is a hop from where the parts before it lead
      to where they lead with it; only a part without a column stays where it is. */
  lemma {:induction false} EveryPartIsAHop(tables: Tables, base: nat, chain: seq<LinkPathPart>, n: nat)
    requires Destination(tables, base, chain).Some? && n < |chain|
    ensures Destination(tables, base, chain[..n]).Some? && Destination(tables, base, chain[..n + 1]).Some?
    ensures var from := Destination(tables, base, chain[..n]).value; var to := Destination(tables, base, chain[..n + 1]).value;
      IsHop(tables, from, chain[n], to) || (chain[n] == LinkPathPart(None, None) && from == to)
    decreases |chain|
  {
    var shorter := chain[..|chain| - 1];
    if n < |shorter| {
      EveryPartIsAHop(tables, base, shorter, n);
      assert shorter[..n] == chain[..n] && shorter[..n + 1] == chain[..n + 1];
    } else {
      assert chain[..n] == shorter && chain[..n + 1] == chain;
    }
  }

  /** Elements of a link type name the column. */
  ghost predicate NamesColumns(next: Mapping) {
    forall cur: nat, path: seq<string>, index: nat {:trigger next(cur, path, index)} ::
      next(cur, path, index).Ok? && IsLinkType(next(cur, path, index).value.element.colType) ==>
        next(cur, path, index).value.element.col.Some?
  }

  lemma {:induction false} StepsLead(tables: Tables, next: Mapping, base: nat, path: seq<string>, tr: Trace, chain: seq<LinkPathPart>, k: nat)
    requires Follows(tables, next, base, path, tr, chain) && k <= |chain|
    ensures Destination(tables, base, chain[..k]) == Some(tr.tables[k])
  {
    if k > 0 {
      StepsLead(tables, next, base, path, tr, chain, k - 1);
      assert chain[..k] == chain[..k - 1] + [chain[k - 1]];
      DestinationStep(tables, base, chain[..k - 1], tr.tables[k - 1], chain[k - 1]);
    }
  }

  /** If elements of a link type name the column, every part of a walk's chain is a link. */
  lemma EveryPartIsALink(tables: Tables, next: Mapping, base: nat, path: seq<string>, chain: seq<LinkPathPart>, n: nat)
    requires NamesColumns(next) && Explained(tables, next, base, path, Ok(chain)) && n < |chain|
    ensures var from := Destination(tables, base, chain[..n]); var to := Destination(tables, base, chain[..n + 1]);
      from.Some? && to.Some? && IsHop(tables, from.value, chain[n], to.value)
  {
    var tr, links :| Explains(tables, next, base, path, Ok(chain), tr, links);
    StepsLead(tables, next, base, path, tr, chain, |chain|);
    assert chain[..|chain|] == chain;
    assert StepsTo(tables, next, path, tr.tables[n], tr.positions[n], chain[n], tr.tables[n + 1], tr.positions[n + 1]);
    EveryPartIsAHop(tables, base, chain, n);
  }
}
