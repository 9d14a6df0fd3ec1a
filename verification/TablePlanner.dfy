/**
 The foreign-key planner (`table-migration-planner.service.ts`): tables by levels, parents first, with the
 tables on a cycle, or behind one, as a last level of their own.
 */
module TablePlanner {
  import opened Wrappers

  /** The planner compares names with `===` and orders them by their collation, nothing else. */
  type Name(==)

  datatype Kind = PrimaryKey | Unique | ForeignKey | Check

  datatype Constraint = Constraint(kind: Kind, referencedTable: Option<Name>)

  datatype TableSchema = TableSchema(name: Name, constraints: seq<Constraint>)

  /** Row estimates, and `localeCompare` as each name's place in the locale's order. */
  datatype Ranking = Ranking(estimates: map<Name, int>, collate: Name -> int)

  datatype Plan = Plan(loadOrder: seq<Name>, cleanupOrder: seq<Name>, levels: seq<seq<Name>>, cyclicTables: seq<Name>)

  /** The parents of every table. */
  type Graph = map<Name, set<Name>>

  function Members(s: seq<Name>): set<Name> {
    set n | n in s
  }

  predicate Distinct(s: seq<Name>) {
    forall i, j :: 0 <= i < j < |s| ==> s[i] != s[j]
  }

  // ---- the graph the foreign keys draw ----

  function NamesOf(tables: seq<TableSchema>): set<Name> {
    set t | t in tables :: t.name
  }

  /** A constraint orders `self` after another of the tables to be migrated. */
  predicate Orders(c: Constraint, self: Name, names: set<Name>) {
    c.kind.ForeignKey? && c.referencedTable.Some? && c.referencedTable.value in names && c.referencedTable.value != self
  }

  function Referenced(constraints: seq<Constraint>, self: Name, names: set<Name>): set<Name> {
    set c | c in constraints && Orders(c, self, names) :: c.referencedTable.value
  }

  function ParentsIn(tables: seq<TableSchema>, n: Name, names: set<Name>): set<Name> {
    if tables == [] then {}
    else
      var before, t := ParentsIn(tables[..|tables| - 1], n, names), tables[|tables| - 1];
      if t.name == n then before + Referenced(t.constraints, n, names) else before
  }

  function GraphOf(tables: seq<TableSchema>): Graph {
    map n | n in NamesOf(tables) :: ParentsIn(tables, n, NamesOf(tables))
  }

  ghost predicate Closed(g: Graph) {
    forall n :: n in g ==> g[n] <= g.Keys && n !in g[n]
  }

  ghost predicate Inverse(parents: Graph, children: Graph) {
    && children.Keys == parents.Keys
    && (forall p :: p in children ==> children[p] <= parents.Keys)
    && (forall n, p :: n in parents && p in children ==> (n in children[p] <==> p in parents[n]))
  }

  lemma {:induction false} ParentsAreOthers(tables: seq<TableSchema>, n: Name, names: set<Name>)
    ensures ParentsIn(tables, n, names) <= names - {n}
  {
    if tables != [] {
      ParentsAreOthers(tables[..|tables| - 1], n, names);
    }
  }

  lemma ReferencedMore(before: seq<Constraint>, c: Constraint, self: Name, names: set<Name>)
    ensures Referenced(before + [c], self, names)
         == Referenced(before, self, names) + if Orders(c, self, names) then {c.referencedTable.value} else {}
  {
    assert forall d :: d in before + [c] <==> d in before || d == c;
  }

  /** `grown` is `parents` with `more` added to the parents of `self`. */
  ghost predicate Extends(parents: Graph, grown: Graph, self: Name, more: set<Name>) {
    && grown.Keys == parents.Keys && self in parents
    && (forall n :: n in parents && n != self ==> grown[n] == parents[n])
    && grown[self] == parents[self] + more
  }

  lemma InverseThen(parents: Graph, children: Graph, n: Name, p: Name)
    requires Inverse(parents, children) && n in parents && p in parents
    ensures Inverse(parents[n := parents[n] + {p}], children[p := children[p] + {n}])
  {
  }

  /** One table's constraints: each foreign key to another table is an edge, drawn at both ends. */
  method DrawEdges(t: TableSchema, names: set<Name>, parents: Graph, children: Graph) returns (parents': Graph, children': Graph)
    requires parents.Keys == names && t.name in names && Inverse(parents, children)
    ensures Inverse(parents', children') && Extends(parents, parents', t.name, Referenced(t.constraints, t.name, names))
  {
    parents', children' := parents, children;
    for j := 0 to |t.constraints|
      invariant Extends(parents, parents', t.name, Referenced(t.constraints[..j], t.name, names))
      invariant Inverse(parents', children')
    {
      var c := t.constraints[j];
      assert t.constraints[..j + 1] == t.constraints[..j] + [c];
      ReferencedMore(t.constraints[..j], c, t.name, names);
      if c.kind.ForeignKey? && c.referencedTable.Some? && c.referencedTable.value in names && c.referencedTable.value != t.name {
        var p := c.referencedTable.value;
        InverseThen(parents', children', t.name, p);
        parents' := parents'[t.name := parents'[t.name] + {p}];
        children' := children'[p := children'[p] + {t.name}];
      }
    }
    assert t.constraints[..|t.constraints|] == t.constraints;
  }

  lemma {:induction false} ParentsMore(tables: seq<TableSchema>, i: nat, n: Name, names: set<Name>)
    requires i < |tables|
    ensures ParentsIn(tables[..i + 1], n, names)
         == ParentsIn(tables[..i], n, names) + if tables[i].name == n then Referenced(tables[i].constraints, n, names) else {}
  {
    assert tables[..i + 1][..i] == tables[..i];
  }

  ghost predicate ParentsUpTo(tables: seq<TableSchema>, names: set<Name>, parents: Graph) {
    parents.Keys == names && forall n :: n in names ==> parents[n] == ParentsIn(tables, n, names)
  }

  lemma UpToNext(tables: seq<TableSchema>, i: nat, names: set<Name>, before: Graph, after: Graph)
    requires i < |tables| && ParentsUpTo(tables[..i], names, before)
    requires Extends(before, after, tables[i].name, Referenced(tables[i].constraints, tables[i].name, names))
    ensures ParentsUpTo(tables[..i + 1], names, after)
  {
    forall n | n in names
      ensures after[n] == ParentsIn(tables[..i + 1], n, names)
    {
      ParentsMore(tables, i, n, names);
    }
  }

  method DrawGraph(tables: seq<TableSchema>) returns (parents: Graph, children: Graph)
    ensures parents == GraphOf(tables) && Inverse(parents, children)
  {
    var names := NamesOf(tables);
    parents := map n | n in names :: {};
    children := map n | n in names :: {};
    for i := 0 to |tables|
      invariant ParentsUpTo(tables[..i], names, parents) && Inverse(parents, children)
    {
      assert tables[i] in tables;
      ghost var before := parents;
      parents, children := DrawEdges(tables[i], names, parents, children);
      UpToNext(tables, i, names, before, parents);
    }
    assert tables[..|tables|] == tables;
  }

  // ---- levels, as sets ----

  /** The tables whose parents are all settled, `k` rounds in. */
  function Settled(g: Graph, k: nat): set<Name> {
    if k == 0 then {} else Ready(g, Settled(g, k - 1))
  }

  function Ready(g: Graph, visited: set<Name>): set<Name> {
    set n | n in g && g[n] <= visited
  }

  function Wave(g: Graph, k: nat): set<Name> {
    Settled(g, k + 1) - Settled(g, k)
  }

  lemma {:induction false} SettledGrows(g: Graph, k: nat)
    ensures Settled(g, k) <= Settled(g, k + 1)
  {
    if k > 0 {
      SettledGrows(g, k - 1);
    }
  }

  /** Everything on level `k` has its parents on lower levels, and above level 0 one of them just below. */
  lemma WaveRestsOnLast(g: Graph, k: nat, n: Name)
    requires n in Wave(g, k)
    ensures g[n] <= Settled(g, k) && (k > 0 ==> g[n] * Wave(g, k - 1) != {})
  {
    if k > 0 {
      var p :| p in g[n] && p !in Settled(g, k - 1);
      assert p in g[n] * Wave(g, k - 1);
    }
  }

  /** A set of tables each of which waits for another of the set. */
  ghost predicate WaitsOnItself(g: Graph, s: set<Name>) {
    s <= g.Keys && forall n :: n in s ==> g[n] * s != {}
  }

  lemma {:induction false} NoWaiterSettles(g: Graph, s: set<Name>, k: nat)
    requires WaitsOnItself(g, s)
    ensures Settled(g, k) !! s
  {
    if k > 0 {
      NoWaiterSettles(g, s, k - 1);
      forall n | n in Settled(g, k)
        ensures n !in s
      {
        assert g[n] * s == {};
      }
    }
  }

  /** What never settles waits on itself, and is the largest set that does. */
  lemma UnsettledIsLargest(g: Graph, k: nat)
    requires Closed(g) && Settled(g, k + 1) == Settled(g, k)
    ensures WaitsOnItself(g, g.Keys - Settled(g, k))
    ensures forall s :: WaitsOnItself(g, s) ==> s <= g.Keys - Settled(g, k)
  {
    forall n | n in g.Keys - Settled(g, k)
      ensures g[n] * (g.Keys - Settled(g, k)) != {}
    {
      var p :| p in g[n] && p !in Settled(g, k);
      assert p in g[n] * (g.Keys - Settled(g, k));
    }
    forall s | WaitsOnItself(g, s)
      ensures s <= g.Keys - Settled(g, k)
    {
      NoWaiterSettles(g, s, k);
    }
  }

  // ---- sorting a level ----

  function Estimate(r: Ranking, n: Name): int {
    if n in r.estimates then r.estimates[n] else 0
  }

  /** The comparator: the larger estimate first, then the collation. */
  predicate AtMost(r: Ranking, a: Name, b: Name) {
    Estimate(r, a) > Estimate(r, b) || (Estimate(r, a) == Estimate(r, b) && r.collate(a) <= r.collate(b))
  }

  predicate Sorted(r: Ranking, s: seq<Name>) {
    forall i, j :: 0 <= i < j < |s| ==> AtMost(r, s[i], s[j])
  }

  ghost predicate FirstOf(r: Ranking, best: Name, names: set<Name>) {
    forall n :: n in names ==> AtMost(r, best, n)
  }

  lemma FirstWith(r: Ranking, best: Name, names: set<Name>, n: Name)
    requires FirstOf(r, best, names) && best in names
    ensures FirstOf(r, if AtMost(r, best, n) then best else n, names + {n})
  {
    assert !AtMost(r, best, n) ==> AtMost(r, n, best);
  }

  method First(names: set<Name>, r: Ranking) returns (best: Name)
    requires names != {}
    ensures best in names && FirstOf(r, best, names)
  {
    best :| best in names;
    var left := names - {best};
    ghost var seen := {best};
    while left != {}
      invariant best in seen && seen + left == names && FirstOf(r, best, seen)
      decreases left
    {
      var n :| n in left;
      FirstWith(r, best, seen, n);
      left, seen := left - {n}, seen + {n};
      if !AtMost(r, best, n) {
        best := n;
      }
    }
  }

  lemma SortedThen(r: Ranking, s: seq<Name>, n: Name)
    requires Sorted(r, s) && Distinct(s) && n !in s && forall m :: m in s ==> AtMost(r, m, n)
    ensures Sorted(r, s + [n]) && Distinct(s + [n]) && Members(s + [n]) == Members(s) + {n}
  {
  }

  method SortTables(names: set<Name>, r: Ranking) returns (sorted: seq<Name>)
    ensures Members(sorted) == names && Distinct(sorted) && Sorted(r, sorted)
  {
    sorted := [];
    var left := names;
    while left != {}
      invariant left <= names && Members(sorted) == names - left && Distinct(sorted) && Sorted(r, sorted)
      invariant forall m :: m in sorted ==> FirstOf(r, m, left)
      decreases left
    {
      var n := First(left, r);
      assert n !in Members(sorted);
      SortedThen(r, sorted, n);
      sorted, left := sorted + [n], left - {n};
    }
  }

  // ---- the worklist ----

  /** One table is settled: each child is owed one parent less, and those owed none come next. */
  method SettleTable(children: set<Name>, visited: set<Name>, queued: set<Name>, indegree: map<Name, int>)
    returns (indegree': map<Name, int>, freed: set<Name>)
    requires children <= indegree.Keys
    ensures CountedDown(indegree, indegree', children)
    ensures freed == FreedBy(indegree', children, visited, queued)
  {
    indegree', freed := indegree, {};
    var left := children;
    while left != {}
      invariant left <= children && CountedDown(indegree, indegree', children - left)
      invariant freed == FreedBy(indegree', children - left, visited, queued)
      decreases left
    {
      var child :| child in left;
      left := left - {child};
      var nextDegree := indegree'[child] - 1;
      indegree' := indegree'[child := nextDegree];
      if nextDegree == 0 && child !in visited && child !in queued {
        freed := freed + {child};
      }
    }
  }

  ghost predicate CountedDown(before: map<Name, int>, after: map<Name, int>, children: set<Name>) {
    after.Keys == before.Keys && forall n :: n in before ==> after[n] == before[n] - if n in children then 1 else 0
  }

  function FreedBy(indegree: map<Name, int>, children: set<Name>, visited: set<Name>, queued: set<Name>): set<Name> {
    set n | n in children && n in indegree && indegree[n] == 0 && n !in visited && n !in queued
  }

  /** Every in-degree is the number of parents still to be visited. */
  ghost predicate Degrees(g: Graph, indegree: map<Name, int>, visited: set<Name>) {
    indegree.Keys == g.Keys && forall n :: n in g ==> indegree[n] == |g[n] - visited|
  }

  ghost predicate ChildrenOf(g: Graph, p: Name, children: set<Name>) {
    children <= g.Keys && forall n :: n in g ==> (n in children <==> p in g[n])
  }

  lemma OwedLess(s: set<Name>, visited: set<Name>, p: Name)
    requires p !in visited
    ensures |s - (visited + {p})| == |s - visited| - if p in s then 1 else 0
  {
    if p in s {
      assert s - (visited + {p}) == (s - visited) - {p};
    } else {
      assert s - (visited + {p}) == s - visited;
    }
  }

  lemma DegreesNext(g: Graph, before: map<Name, int>, after: map<Name, int>, visited: set<Name>, p: Name, children: set<Name>)
    requires Degrees(g, before, visited) && CountedDown(before, after, children) && ChildrenOf(g, p, children) && p !in visited
    ensures Degrees(g, after, visited + {p})
  {
    forall n | n in g
      ensures after[n] == |g[n] - (visited + {p})|
    {
      OwedLess(g[n], visited, p);
    }
  }

  /** The children freed with `p` are exactly the tables that become ready with it. */
  lemma ReadyNext(g: Graph, indegree: map<Name, int>, visited: set<Name>, p: Name, children: set<Name>, known: set<Name>)
    requires Degrees(g, indegree, visited + {p}) && ChildrenOf(g, p, children) && visited + {p} <= known
    ensures var ready := Ready(g, visited) - known;
            ready + FreedBy(indegree, children, visited + {p}, known + ready) == Ready(g, visited + {p}) - known
  {
  }

  lemma VisitedNext(s: seq<Name>, i: nat, visited: set<Name>)
    requires i < |s| && Distinct(s) && visited !! Members(s)
    ensures visited + Members(s[..i + 1]) == visited + Members(s[..i]) + {s[i]}
    ensures s[i] in Members(s) && s[i] !in visited + Members(s[..i])
    ensures visited + Members(s[..i]) + {s[i]} <= visited + Members(s)
  {
    assert s[..i + 1] == s[..i] + [s[i]];
  }

  /** One table of a level: what is queued grows by exactly the tables that become ready with it. */
  method VisitTable(g: Graph, children: Graph, p: Name, visited: set<Name>, queued: set<Name>, next: set<Name>,
                    indegree: map<Name, int>, ghost known: set<Name>)
    returns (queued': set<Name>, next': set<Name>, indegree': map<Name, int>)
    requires Inverse(g, children) && p in g && p !in visited && visited + {p} <= known
    requires Degrees(g, indegree, visited) && next == Ready(g, visited) - known && queued == known + next
    ensures Degrees(g, indegree', visited + {p})
    ensures next' == Ready(g, visited + {p}) - known && queued' == known + next'
  {
    var freed;
    indegree', freed := SettleTable(children[p], visited + {p}, queued, indegree);
    DegreesNext(g, indegree, indegree', visited, p, children[p]);
    ReadyNext(g, indegree', visited, p, children[p], known);
    next', queued' := next + freed, queued + freed;
  }

  /** One level: all of it is visited, and what only waited for it comes next. */
  method SettleLevel(g: Graph, children: Graph, level: seq<Name>, visited: set<Name>, indegree: map<Name, int>)
    returns (visited': set<Name>, indegree': map<Name, int>, next: set<Name>)
    requires Inverse(g, children) && Distinct(level) && Members(level) == Ready(g, visited) - visited
    requires Degrees(g, indegree, visited)
    ensures visited' == visited + Members(level) && Degrees(g, indegree', visited')
    ensures next == Ready(g, visited') - visited'
  {
    visited', indegree', next := visited, indegree, {};
    var queued := visited + Members(level);
    ghost var known := queued;
    assert level[..0] == [];
    for i := 0 to |level|
      invariant visited' == visited + Members(level[..i]) && Degrees(g, indegree', visited')
      invariant next == Ready(g, visited') - known && queued == known + next
    {
      VisitedNext(level, i, visited);
      queued, next, indegree' := VisitTable(g, children, level[i], visited', queued, next, indegree', known);
      visited' := visited' + {level[i]};
    }
    assert level[..|level|] == level;
  }

  // ---- the plan ----

  function Flat(levels: seq<seq<Name>>): seq<Name> {
    if levels == [] then [] else Flat(levels[..|levels| - 1]) + levels[|levels| - 1]
  }

  function Reversed(s: seq<Name>): seq<Name> {
    seq(|s|, i requires 0 <= i < |s| => s[|s| - 1 - i])
  }

  /** Level by level: the `k`-th holds the `k`-th wave, each table once, in the ranking's order. */
  ghost predicate Waves(g: Graph, levels: seq<seq<Name>>, r: Ranking) {
    forall k :: 0 <= k < |levels| ==> Members(levels[k]) == Wave(g, k) && Distinct(levels[k]) && Sorted(r, levels[k])
  }

  /** The waves in order, then, if any table never settles, one level of those. */
  ghost predicate PlanOk(g: Graph, r: Ranking, plan: Plan, depth: nat) {
    && Settled(g, depth + 1) == Settled(g, depth)
    && Members(plan.cyclicTables) == g.Keys - Settled(g, depth) && Distinct(plan.cyclicTables) && Sorted(r, plan.cyclicTables)
    && depth <= |plan.levels| && Waves(g, plan.levels[..depth], r)
    && plan.levels == plan.levels[..depth] + (if plan.cyclicTables == [] then [] else [plan.cyclicTables])
    && plan.loadOrder == Flat(plan.levels) && plan.cleanupOrder == Reversed(plan.loadOrder)
  }

  lemma FirstDegrees(g: Graph, indegree: map<Name, int>)
    requires indegree.Keys == g.Keys && forall n :: n in g ==> indegree[n] == |g[n]|
    ensures Degrees(g, indegree, {})
    ensures forall n :: n in g ==> (indegree[n] == 0 <==> g[n] <= {})
  {
  }

  lemma FirstWave(g: Graph, indegree: map<Name, int>)
    requires indegree.Keys == g.Keys && forall n :: n in g ==> (indegree[n] == 0 <==> g[n] <= {})
    ensures (set n | n in g && indegree[n] == 0) == Wave(g, 0)
  {
    assert Settled(g, 1) == Ready(g, Settled(g, 0));
  }

  method CountParents(g: Graph) returns (indegree: map<Name, int>)
    ensures Degrees(g, indegree, {}) && (set n | n in g && indegree[n] == 0) == Wave(g, 0)
  {
    indegree := map n | n in g :: |g[n]|;
    FirstDegrees(g, indegree);
    FirstWave(g, indegree);
  }

  /** The worklist between two levels: `level` is the next wave. */
  ghost predicate AtLevel(g: Graph, r: Ranking, levels: seq<seq<Name>>, visited: set<Name>, level: seq<Name>) {
    && visited == Settled(g, |levels|) && Waves(g, levels, r)
    && Members(level) == Wave(g, |levels|) && Distinct(level) && Sorted(r, level)
  }

  lemma {:induction false} NextLevel(g: Graph, r: Ranking, levels: seq<seq<Name>>, visited: set<Name>, level: seq<Name>)
    requires AtLevel(g, r, levels, visited, level)
    ensures Members(level) == Ready(g, visited) - visited
    ensures Waves(g, levels + [level], r) && visited + Members(level) == Settled(g, |levels| + 1)
    ensures Ready(g, visited + Members(level)) - (visited + Members(level)) == Wave(g, |levels| + 1)
    ensures level != [] ==> g.Keys - (visited + Members(level)) < g.Keys - visited
    ensures level == [] ==> Settled(g, |levels| + 1) == visited
  {
    SettledGrows(g, |levels|);
    if level != [] {
      assert level[0] in Members(level) && level[0] in g.Keys - visited;
    } else {
      assert Members(level) == {};
    }
  }

  method Advance(g: Graph, children: Graph, r: Ranking, ghost levels: seq<seq<Name>>, level: seq<Name>,
                 visited: set<Name>, indegree: map<Name, int>)
    returns (level': seq<Name>, visited': set<Name>, indegree': map<Name, int>)
    requires Inverse(g, children) && level != [] && AtLevel(g, r, levels, visited, level) && Degrees(g, indegree, visited)
    ensures AtLevel(g, r, levels + [level], visited', level') && Degrees(g, indegree', visited')
    ensures g.Keys - visited' < g.Keys - visited
  {
    NextLevel(g, r, levels, visited, level);
    var next;
    visited', indegree', next := SettleLevel(g, children, level, visited, indegree);
    level' := SortTables(next, r);
  }

  method SettleAll(g: Graph, children: Graph, r: Ranking) returns (levels: seq<seq<Name>>, visited: set<Name>)
    requires Inverse(g, children)
    ensures Waves(g, levels, r) && visited == Settled(g, |levels|) == Settled(g, |levels| + 1)
  {
    levels, visited := [], {};
    var indegree := CountParents(g);
    var currentLevel := SortTables((set n | n in g && indegree[n] == 0), r);
    while |currentLevel| > 0
      invariant AtLevel(g, r, levels, visited, currentLevel) && Degrees(g, indegree, visited)
      decreases g.Keys - visited
    {
      ghost var before := levels;
      levels := levels + [currentLevel];
      currentLevel, visited, indegree := Advance(g, children, r, before, currentLevel, visited, indegree);
    }
    NextLevel(g, r, levels, visited, currentLevel);
  }

  /** `plan`. */
  method MakePlan(tables: seq<TableSchema>, r: Ranking) returns (plan: Plan)
    ensures exists depth :: PlanOk(GraphOf(tables), r, plan, depth)
  {
    var g, children := DrawGraph(tables);
    var levels, visited := SettleAll(g, children, r);
    ghost var depth, waves := |levels|, levels;
    var cyclicTables := SortTables(g.Keys - visited, r);
    if |cyclicTables| > 0 {
      levels := levels + [cyclicTables];
    }
    plan := Plan(Flat(levels), Reversed(Flat(levels)), levels, cyclicTables);
    assert levels[..depth] == waves;
    assert PlanOk(g, r, plan, depth);
  }

  // ---- what a plan promises ----

  lemma GraphIsClosed(tables: seq<TableSchema>)
    ensures Closed(GraphOf(tables)) && GraphOf(tables).Keys == NamesOf(tables)
  {
    forall n | n in NamesOf(tables) {
      ParentsAreOthers(tables, n, NamesOf(tables));
    }
  }

  /** `child` declares a foreign key to another table of the migration. */
  ghost predicate DependsOn(tables: seq<TableSchema>, child: Name, parent: Name) {
    && parent in NamesOf(tables) && parent != child
    && exists t, c :: t in tables && t.name == child && c in t.constraints && c.kind.ForeignKey? && c.referencedTable == Some(parent)
  }

  lemma {:induction false} ParentsAreForeignKeys(tables: seq<TableSchema>, n: Name, names: set<Name>, p: Name)
    ensures p in ParentsIn(tables, n, names) <==>
            p in names && p != n &&
            exists t, c :: t in tables && t.name == n && c in t.constraints && c.kind.ForeignKey? && c.referencedTable == Some(p)
  {
    if tables != [] {
      var k := |tables| - 1;
      ParentsAreForeignKeys(tables[..k], n, names, p);
      assert tables == tables[..k] + [tables[k]];
    }
  }

  /** Each parent of one of the first `m` tables stands before it. */
  predicate ParentsFirst(g: Graph, order: seq<Name>, m: nat) {
    m <= |order| && forall i :: 0 <= i < m ==> order[i] in g && g[order[i]] <= Members(order[..i])
  }

  lemma JoinDistinct(order: seq<Name>, level: seq<Name>)
    requires Distinct(order) && Distinct(level) && Members(order) !! Members(level)
    ensures Distinct(order + level) && Members(order + level) == Members(order) + Members(level)
  {
    forall i, j | 0 <= i < j < |order + level|
      ensures (order + level)[i] != (order + level)[j]
    {
      if i < |order| <= j {
        assert order[i] in Members(order) && level[j - |order|] in Members(level);
      }
    }
  }

  lemma JoinInOrder(g: Graph, order: seq<Name>, level: seq<Name>)
    requires ParentsFirst(g, order, |order|)
    requires forall n :: n in level ==> n in g && g[n] <= Members(order)
    ensures ParentsFirst(g, order + level, |order + level|)
  {
    var all := order + level;
    forall i | 0 <= i < |all|
      ensures all[i] in g && g[all[i]] <= Members(all[..i])
    {
      if i < |order| {
        assert all[..i] == order[..i] && all[i] == order[i];
      } else {
        assert all[i] == level[i - |order|] && all[..i] == order + level[..i - |order|];
      }
    }
  }

  lemma {:induction false} WavesInOrder(g: Graph, levels: seq<seq<Name>>, r: Ranking)
    requires Waves(g, levels, r)
    ensures ParentsFirst(g, Flat(levels), |Flat(levels)|) && Distinct(Flat(levels)) && Members(Flat(levels)) == Settled(g, |levels|)
    decreases |levels|
  {
    if levels != [] {
      var k := |levels| - 1;
      WavesInOrder(g, levels[..k], r);
      SettledGrows(g, k);
      JoinDistinct(Flat(levels[..k]), levels[k]);
      forall n | n in levels[k]
        ensures n in g && g[n] <= Settled(g, k)
      {
        assert n in Members(levels[k]);
      }
      JoinInOrder(g, Flat(levels[..k]), levels[k]);
    }
  }

  lemma {:induction false} FlatLast(levels: seq<seq<Name>>, level: seq<Name>)
    ensures Flat(levels + [level]) == Flat(levels) + level
  {
    assert (levels + [level])[..|levels|] == levels;
  }

  lemma OrderIs(g: Graph, r: Ranking, plan: Plan, depth: nat)
    requires PlanOk(g, r, plan, depth)
    ensures plan.loadOrder == Flat(plan.levels[..depth]) + plan.cyclicTables
  {
    if plan.cyclicTables != [] {
      FlatLast(plan.levels[..depth], plan.cyclicTables);
    } else {
      assert plan.levels == plan.levels[..depth];
    }
  }

  /** Every table is loaded, and cleared, exactly once. */
  lemma PlanIsPermutation(tables: seq<TableSchema>, r: Ranking, plan: Plan, depth: nat)
    requires PlanOk(GraphOf(tables), r, plan, depth)
    ensures Distinct(plan.loadOrder) && Members(plan.loadOrder) == NamesOf(tables)
    ensures Distinct(plan.cleanupOrder) && Members(plan.cleanupOrder) == NamesOf(tables)
  {
    var g := GraphOf(tables);
    WavesInOrder(g, plan.levels[..depth], r);
    OrderIs(g, r, plan, depth);
    SettledWithin(g, depth);
    JoinDistinct(Flat(plan.levels[..depth]), plan.cyclicTables);
    ReversedHasSame(plan.loadOrder);
  }

  lemma {:induction false} SettledWithin(g: Graph, k: nat)
    ensures Settled(g, k) <= g.Keys
  {
    if k > 0 {
      SettledWithin(g, k - 1);
    }
  }

  lemma ReversedHasSame(s: seq<Name>)
    ensures Members(Reversed(s)) == Members(s) && (Distinct(s) ==> Distinct(Reversed(s)))
  {
    forall n | n in s
      ensures n in Reversed(s)
    {
      var i :| 0 <= i < |s| && s[i] == n;
      assert Reversed(s)[|s| - 1 - i] == n;
    }
  }

  lemma {:induction false} SettledCovers(g: Graph, levels: seq<seq<Name>>, r: Ranking, k: nat, p: Name)
    requires Waves(g, levels, r) && k <= |levels| && p in Settled(g, k)
    ensures exists j :: 0 <= j < k && p in levels[j]
  {
    if p in Settled(g, k - 1) {
      SettledCovers(g, levels, r, k - 1, p);
    } else {
      assert p in Wave(g, k - 1) && p in Members(levels[k - 1]);
      assert p in levels[k - 1];
    }
  }

  /** Off the cycles, a table's parents are on lower levels, and above level 0 one is on the level just below. */
  lemma LevelsAreTight(tables: seq<TableSchema>, r: Ranking, plan: Plan, depth: nat, k: nat, n: Name)
    requires PlanOk(GraphOf(tables), r, plan, depth) && k < depth && n in plan.levels[k]
    ensures forall p :: DependsOn(tables, n, p) ==> exists j :: 0 <= j < k && p in plan.levels[j]
    ensures k > 0 ==> exists p :: DependsOn(tables, n, p) && p in plan.levels[k - 1]
  {
    var g := GraphOf(tables);
    assert plan.levels[..depth][k] == plan.levels[k] && n in Members(plan.levels[k]);
    WaveRestsOnLast(g, k, n);
    forall p | DependsOn(tables, n, p)
      ensures exists j :: 0 <= j < k && p in plan.levels[j]
    {
      ParentsAreForeignKeys(tables, n, NamesOf(tables), p);
      SettledCovers(g, plan.levels[..depth], r, k, p);
      var j :| 0 <= j < k && p in plan.levels[..depth][j];
      assert p in plan.levels[j];
    }
    if k > 0 {
      var p :| p in g[n] * Wave(g, k - 1);
      ParentsAreForeignKeys(tables, n, NamesOf(tables), p);
      assert p in Members(plan.levels[..depth][k - 1]);
      assert DependsOn(tables, n, p);
    }
  }

  /** A set of tables each of which references another of the set. */
  ghost predicate ReferencesItself(tables: seq<TableSchema>, s: set<Name>) {
    s <= NamesOf(tables) && forall n :: n in s ==> ReferencesInto(tables, n, s)
  }

  ghost predicate ReferencesInto(tables: seq<TableSchema>, n: Name, s: set<Name>) {
    exists p :: p in s && DependsOn(tables, n, p)
  }

  lemma EdgeIsReference(tables: seq<TableSchema>, n: Name, p: Name)
    requires n in NamesOf(tables)
    ensures p in GraphOf(tables)[n] <==> DependsOn(tables, n, p)
  {
    ParentsAreForeignKeys(tables, n, NamesOf(tables), p);
  }

  lemma WaitsIsReferences(tables: seq<TableSchema>, s: set<Name>)
    ensures ReferencesItself(tables, s) <==> WaitsOnItself(GraphOf(tables), s)
  {
    if s <= NamesOf(tables) {
      forall n | n in s
        ensures ReferencesInto(tables, n, s) <==> GraphOf(tables)[n] * s != {}
      {
        WaitIsReference(tables, s, n);
      }
    }
  }

  lemma WaitIsReference(tables: seq<TableSchema>, s: set<Name>, n: Name)
    requires n in NamesOf(tables)
    ensures ReferencesInto(tables, n, s) <==> GraphOf(tables)[n] * s != {}
  {
    var parents := GraphOf(tables)[n];
    if p :| p in s && DependsOn(tables, n, p) {
      EdgeIsReference(tables, n, p);
      assert p in parents * s;
    } else if p :| p in parents * s {
      EdgeIsReference(tables, n, p);
    } else {
      assert parents * s == {};
    }
  }

  /** `cyclicTables` is the largest such set: the cycles, and all that hangs on them. */
  lemma CyclicIsLargest(tables: seq<TableSchema>, r: Ranking, plan: Plan, depth: nat)
    requires PlanOk(GraphOf(tables), r, plan, depth)
    ensures ReferencesItself(tables, Members(plan.cyclicTables))
    ensures forall s :: ReferencesItself(tables, s) ==> s <= Members(plan.cyclicTables)
  {
    var g := GraphOf(tables);
    GraphIsClosed(tables);
    UnsettledIsLargest(g, depth);
    WaitsIsReferences(tables, Members(plan.cyclicTables));
    forall s | ReferencesItself(tables, s)
      ensures s <= Members(plan.cyclicTables)
    {
      WaitsIsReferences(tables, s);
    }
  }

  /** Loading puts the parents of a table off the cycles before it, and clearing puts it before them. */
  lemma ChildrenAreClearedFirst(tables: seq<TableSchema>, r: Ranking, plan: Plan, depth: nat, i: nat, j: nat)
    requires PlanOk(GraphOf(tables), r, plan, depth)
    requires i < |plan.loadOrder| && j < |plan.loadOrder|
    ensures plan.loadOrder[i] !in plan.cyclicTables && DependsOn(tables, plan.loadOrder[i], plan.loadOrder[j]) ==> j < i
    ensures plan.cleanupOrder[i] !in plan.cyclicTables && DependsOn(tables, plan.cleanupOrder[i], plan.cleanupOrder[j]) ==> i < j
  {
    ParentsLoadFirst(tables, r, plan, depth, i, j);
    ParentsLoadFirst(tables, r, plan, depth, |plan.loadOrder| - 1 - i, |plan.loadOrder| - 1 - j);
  }

  lemma ParentsLoadFirst(tables: seq<TableSchema>, r: Ranking, plan: Plan, depth: nat, i: nat, j: nat)
    requires PlanOk(GraphOf(tables), r, plan, depth)
    requires i < |plan.loadOrder| && j < |plan.loadOrder|
    ensures plan.loadOrder[i] !in plan.cyclicTables && DependsOn(tables, plan.loadOrder[i], plan.loadOrder[j]) ==> j < i
  {
    var g, order := GraphOf(tables), plan.loadOrder;
    if order[i] !in plan.cyclicTables && DependsOn(tables, order[i], order[j]) {
      var front := Flat(plan.levels[..depth]);
      WavesInOrder(g, plan.levels[..depth], r);
      OrderIs(g, r, plan, depth);
      ParentsAreForeignKeys(tables, order[i], NamesOf(tables), order[j]);
      PlanIsPermutation(tables, r, plan, depth);
      var at :| 0 <= at < |front| && front[at] == order[i];
      assert order[at] == front[at] && at == i;
      assert order[j] in Members(front[..i]);
      var k :| 0 <= k < i && front[k] == order[j];
      assert order[k] == front[k];
    }
  }
}
