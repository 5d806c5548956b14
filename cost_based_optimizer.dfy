/**
 * The cost-based optimizer. It has two parts:
 * - a bottom-up estimation pass, which attaches row and cost estimates to
 *   every node and records the cheapest join algorithm at each Join;
 * - a local search, which re-estimates each node over its optimized
 *   children and keeps an alternative only when it is strictly cheaper.
 *
 * The source updates plan nodes in place; here every update returns the
 * updated node. The source re-estimates the shared list of optimized
 * children once per alternative, and this value model agrees with it because
 * re-estimating an estimated tree changes nothing (EstimateIdempotent).
 */
module CostBased {
  import opened Wrappers
  import opened Strings
  import opened Plan

  /** What `get_table_stats` answers, for the tables it knows. */
  type Provider = map<string, Statistics>

  /**
   * The optimizer's context: the statistics provider, and `math.log` as an
   * uninterpreted function (only the merge-join cost uses it).
   */
  datatype Env = Env(provider: Provider, ln: real -> real)

  function RealMax(a: real, b: real): real { if a >= b then a else b }

  function IntMax(a: int, b: int): int { if a >= b then a else b }

  /** Python's `int(x)` on a float: truncation toward zero, by less than one. */
  function Truncate(x: real): (t: int)
    ensures x >= 0.0 ==> 0 <= t && t as real <= x < t as real + 1.0
    ensures x < 0.0 ==> t <= 0 && t as real - 1.0 < x <= t as real
  {
    if x >= 0.0 then x.Floor else -((-x).Floor)
  }

  // ---------------------------------------------------------------------------
  // Splitting a condition into clauses: re.split(r'\s+AND\s+', c, flags=IGNORECASE)

  predicate AllSpace(t: string)
  {
    forall k :: 0 <= k < |t| ==> IsSpace(t[k])
  }

  /** End of the run of whitespace that starts at `i` (the greedy `\s+`). */
  function SpaceRunEnd(s: string, i: nat): (j: nat)
    requires i <= |s|
    ensures i <= j <= |s|
    decreases |s| - i
  {
    if i < |s| && IsSpace(s[i]) then SpaceRunEnd(s, i + 1) else i
  }

  lemma {:induction false} SpaceRun(s: string, i: nat)
    requires i <= |s|
    ensures AllSpace(s[i..SpaceRunEnd(s, i)])
    ensures SpaceRunEnd(s, i) == |s| || !IsSpace(s[SpaceRunEnd(s, i)])
    decreases |s| - i
  {
    if i < |s| && IsSpace(s[i]) {
      SpaceRun(s, i + 1);
      var j := SpaceRunEnd(s, i);
      assert forall k :: 1 <= k < j - i ==> s[i..j][k] == s[i + 1..j][k - 1];
    }
  }

  /**
   * Where a match of the separator that starts at `i` ends, if there is one:
   * all the whitespace from `i` on, then `AND` in any letter case, then all
   * the whitespace after it. Backtracking cannot help the regular expression
   * here, since `A` is not whitespace.
   */
  function SeparatorAt(s: string, i: nat): (end: Option<nat>)
    requires i <= |s|
    ensures end.Some? ==> i + 5 <= end.value <= |s|
  {
    if i < |s| && IsSpace(s[i]) then
      var j := SpaceRunEnd(s, i);
      if j + 3 < |s| && Upper(s[j..j + 3]) == "AND" && IsSpace(s[j + 3]) then
        Some(SpaceRunEnd(s, j + 3))
      else None
    else None
  }

  /** A whole separator: whitespace, `AND` in any case, whitespace. */
  predicate IsSeparator(t: string)
  {
    exists j :: 1 <= j && j + 3 < |t| && AllSpace(t[..j]) && Upper(t[j..j + 3]) == "AND" && AllSpace(t[j + 3..])
  }

  /** The leftmost separator match at or after `start`, as (start, end). */
  function FindSeparator(s: string, start: nat): (m: Option<(nat, nat)>)
    requires start <= |s|
    ensures m.Some? ==> start <= m.value.0 && m.value.0 + 5 <= m.value.1 <= |s|
    decreases |s| - start
  {
    if start == |s| then None
    else match SeparatorAt(s, start)
      case Some(e) => Some((start, e))
      case None => FindSeparator(s, start + 1)
  }

  /** The pieces of a split and the separator matches between them. */
  datatype Split = Split(pieces: seq<string>, separators: seq<string>)

  function SplitAnd(s: string): (r: Split)
    ensures |r.pieces| == |r.separators| + 1
    decreases |s|
  {
    match FindSeparator(s, 0)
    case None => Split([s], [])
    case Some((i, e)) =>
      var rest := SplitAnd(s[e..]);
      Split([s[..i]] + rest.pieces, [s[i..e]] + rest.separators)
  }

  /** The AND-separated clauses of a condition. */
  function Clauses(condition: string): seq<string>
  {
    SplitAnd(condition).pieces
  }

  /** Pieces with the separators put back between them. */
  function Rejoin(pieces: seq<string>, separators: seq<string>): string
    requires |pieces| == |separators| + 1
    decreases |separators|
  {
    if |separators| == 0 then pieces[0]
    else pieces[0] + separators[0] + Rejoin(pieces[1..], separators[1..])
  }

  /** The separator search reports the leftmost match and misses none. */
  lemma {:induction false} FindSeparatorLeftmost(s: string, start: nat)
    requires start <= |s|
    ensures FindSeparator(s, start).Some? ==>
      SeparatorAt(s, FindSeparator(s, start).value.0) == Some(FindSeparator(s, start).value.1)
      && forall k :: start <= k < FindSeparator(s, start).value.0 ==> SeparatorAt(s, k).None?
    ensures FindSeparator(s, start).None? ==> forall k :: start <= k <= |s| ==> SeparatorAt(s, k).None?
    decreases |s| - start
  {
    if start < |s| && SeparatorAt(s, start).None? {
      FindSeparatorLeftmost(s, start + 1);
    }
  }

  lemma SeparatorAtMatches(s: string, i: nat)
    requires i <= |s| && SeparatorAt(s, i).Some?
    ensures IsSeparator(s[i..SeparatorAt(s, i).value])
  {
    var j := SpaceRunEnd(s, i);
    assert i < |s| && IsSpace(s[i]);
    assert j == SpaceRunEnd(s, i + 1);
    assert j + 3 < |s| && Upper(s[j..j + 3]) == "AND" && IsSpace(s[j + 3]);
    var e := SpaceRunEnd(s, j + 3);
    assert e == SpaceRunEnd(s, j + 4);
    assert SeparatorAt(s, i) == Some(e);
    SpaceRun(s, i);
    SpaceRun(s, j + 3);
    var t := s[i..e];
    var d := j - i;
    SliceOfSlice(s, i, e, 0, d);
    SliceOfSlice(s, i, e, d, d + 3);
    SliceOfSlice(s, i, e, d + 3, e - i);
    assert t[..d] == s[i..j];
    assert t[d..d + 3] == s[j..j + 3];
    assert t[d + 3..] == s[j + 3..e];
    assert AllSpace(t[..d]);
    assert Upper(t[d..d + 3]) == "AND";
    assert AllSpace(t[d + 3..]);
    assert 1 <= d && d + 3 < |t|;
  }

  lemma SliceOfSlice<T>(s: seq<T>, i: nat, e: nat, a: nat, b: nat)
    requires i <= e <= |s| && a <= b <= e - i
    ensures s[i..e][a..b] == s[i + a..i + b]
  {
    var t := s[i..e];
    forall k | 0 <= k < b - a
      ensures t[a..b][k] == s[i + a..i + b][k]
    {
      assert t[a..b][k] == t[a + k];
      assert t[a + k] == s[i + a + k];
    }
  }

  lemma SliceJoin(s: string, i: nat, e: nat)
    requires i <= e <= |s|
    ensures s[..i] + s[i..e] + s[e..] == s
  {
  }

  lemma RejoinCons(p: string, q: string, ps: seq<string>, qs: seq<string>)
    requires |ps| == |qs| + 1
    ensures Rejoin([p] + ps, [q] + qs) == p + q + Rejoin(ps, qs)
  {
    assert ([p] + ps)[1..] == ps;
    assert ([q] + qs)[1..] == qs;
  }

  /** The split loses nothing: putting the separators back between the pieces gives the condition again. */
  lemma {:induction false} SplitAndRebuilds(s: string)
    ensures Rejoin(SplitAnd(s).pieces, SplitAnd(s).separators) == s
    decreases |s|
  {
    match FindSeparator(s, 0)
    case None =>
    case Some((i, e)) =>
      var rest := SplitAnd(s[e..]);
      SplitAndRebuilds(s[e..]);
      RejoinCons(s[..i], s[i..e], rest.pieces, rest.separators);
      SliceJoin(s, i, e);
  }

  /** Every separator the split removes is a full match of the pattern. */
  lemma {:induction false} SplitAndSeparators(s: string)
    ensures forall k :: 0 <= k < |SplitAnd(s).separators| ==> IsSeparator(SplitAnd(s).separators[k])
    decreases |s|
  {
    match FindSeparator(s, 0)
    case None =>
    case Some((i, e)) =>
      var rest := SplitAnd(s[e..]);
      SplitAndSeparators(s[e..]);
      FindSeparatorLeftmost(s, 0);
      SeparatorAtMatches(s, i);
      var seps := SplitAnd(s).separators;
      assert seps == [s[i..e]] + rest.separators;
      assert forall k :: 1 <= k < |seps| ==> seps[k] == rest.separators[k - 1];
  }

  // ---------------------------------------------------------------------------
  // Selectivity

  /** The factor one clause contributes. */
  function Factor(clause: string): (f: real)
    ensures 0.0 < f <= 1.0
  {
    if Contains(clause, "=") then 0.1
    else if Contains(clause, ">") || Contains(clause, "<") || Contains(clause, ">=") || Contains(clause, "<=") then 0.3
    else if Contains(Upper(clause), "LIKE") then 0.5
    else 0.8
  }

  /** The product of the clauses' factors, taken left to right. */
  function Product(clauses: seq<string>): (p: real)
    ensures 0.0 < p <= 1.0
    decreases |clauses|
  {
    if |clauses| == 0 then 1.0
    else
      var init := Product(clauses[..|clauses| - 1]);
      var f := Factor(clauses[|clauses| - 1]);
      assert init * f <= init * 1.0;
      init * f
  }

  /** `_estimate_selectivity`: 1.0 for no condition, else the product raised to at least 0.01. */
  function Selectivity(condition: string): (s: real)
    ensures 0.01 <= s <= 1.0
    ensures condition == "" ==> s == 1.0
  {
    if condition == "" then 1.0 else RealMax(0.01, Product(Clauses(condition)))
  }

  lemma {:induction false} EqualitiesProduct(clauses: seq<string>)
    requires |clauses| >= 2
    requires forall k :: 0 <= k < |clauses| ==> Contains(clauses[k], "=")
    ensures Product(clauses) <= 0.01
    decreases |clauses|
  {
    var init := clauses[..|clauses| - 1];
    if |clauses| == 2 {
      assert init[..0] == [];
      assert Product(init) == 0.1;
    } else {
      EqualitiesProduct(init);
      assert Product(clauses) == Product(init) * 0.1;
    }
  }

  /** Two or more equality clauses clamp the selectivity to exactly 0.01. */
  lemma EqualityChainFloor(condition: string)
    requires |Clauses(condition)| >= 2
    requires forall k :: 0 <= k < |Clauses(condition)| ==> Contains(Clauses(condition)[k], "=")
    ensures Selectivity(condition) == 0.01
  {
    EqualitiesProduct(Clauses(condition));
  }

  predicate NoSpace(t: string)
  {
    forall k :: 0 <= k < |t| ==> !IsSpace(t[k])
  }

  /** No separator can start on a character that is not whitespace. */
  lemma {:induction false} NoSeparatorBefore(s: string, start: nat, stop: nat)
    requires start <= stop <= |s|
    requires forall k :: start <= k < stop ==> !IsSpace(s[k])
    ensures FindSeparator(s, start) == FindSeparator(s, stop)
    decreases stop - start
  {
    if start < stop {
      assert SeparatorAt(s, start).None?;
      NoSeparatorBefore(s, start + 1, stop);
    }
  }

  /** A condition without whitespace is a single clause. */
  lemma ClausesOfWord(p: string)
    requires NoSpace(p)
    ensures Clauses(p) == [p]
  {
    NoSeparatorBefore(p, 0, |p|);
  }

  /** A clause without whitespace, then ` AND `, then the rest: the clause comes first, then the rest's clauses. */
  lemma ClausesCons(p: string, rest: string)
    requires NoSpace(p) && (|rest| == 0 || !IsSpace(rest[0]))
    ensures Clauses(p + " AND " + rest) == [p] + Clauses(rest)
  {
    var s := p + " AND " + rest;
    var n := |p|;
    assert s[..n] == p;
    assert s[n + 5..] == rest;
    assert s[n..n + 5] == " AND ";
    forall k | 0 <= k < n
      ensures !IsSpace(s[k])
    {
      assert s[k] == p[k];
    }
    NoSeparatorBefore(s, 0, n);
    assert s[n] == s[n..n + 5][0] == ' ';
    assert s[n + 1] == s[n..n + 5][1] == 'A';
    assert s[n + 4] == s[n..n + 5][4] == ' ';
    assert SpaceRunEnd(s, n) == n + 1 by {
      assert SpaceRunEnd(s, n + 1) == n + 1;
    }
    assert s[n + 1..n + 4] == s[n..n + 5][1..4] == "AND";
    assert Upper("AND") == "AND";
    assert SpaceRunEnd(s, n + 4) == n + 5 by {
      assert SpaceRunEnd(s, n + 5) == n + 5;
    }
    assert SeparatorAt(s, n) == Some(n + 5);
    assert FindSeparator(s, n) == Some((n, n + 5));
  }

  /** The first character of a join is the first character of its first item. */
  lemma JoinWithHead(sep: string, items: seq<string>)
    requires |items| > 0 && |items[0]| > 0
    ensures |JoinWith(sep, items)| > 0 && JoinWith(sep, items)[0] == items[0][0]
  {
    if |items| > 1 {
      JoinWithAppend(sep, [items[0]], items[1..]);
      assert [items[0]] + items[1..] == items;
    }
  }

  /**
   * Splitting undoes joining with ` AND `, for clauses that are non-empty and
   * contain no whitespace.
   */
  lemma {:induction false} ClausesOfJoin(clauses: seq<string>)
    requires |clauses| > 0
    requires forall k :: 0 <= k < |clauses| ==> |clauses[k]| > 0 && NoSpace(clauses[k])
    ensures Clauses(JoinWith(" AND ", clauses)) == clauses
    decreases |clauses|
  {
    if |clauses| == 1 {
      ClausesOfWord(clauses[0]);
    } else {
      var rest := clauses[1..];
      ClausesOfJoin(rest);
      JoinWithAppend(" AND ", [clauses[0]], rest);
      assert [clauses[0]] + rest == clauses;
      JoinWithHead(" AND ", rest);
      ClausesCons(clauses[0], JoinWith(" AND ", rest));
    }
  }

  /** Five chained equalities: the product would be 0.1^5, the result is exactly 0.01. */
  lemma FiveEqualities()
    ensures Selectivity("a=1 AND b=2 AND c=3 AND d=4 AND e=5") == 0.01
  {
    var clauses := ["a=1", "b=2", "c=3", "d=4", "e=5"];
    assert clauses[..4] == ["a=1", "b=2", "c=3", "d=4"];
    assert clauses[..4][..3] == ["a=1", "b=2", "c=3"];
    assert clauses[..4][..3][..2] == ["a=1", "b=2"];
    assert clauses[..4][..3][..2][..1] == ["a=1"];
    assert JoinWith(" AND ", clauses[..4][..3][..2]) == "a=1 AND b=2";
    assert JoinWith(" AND ", clauses[..4][..3]) == "a=1 AND b=2 AND c=3";
    assert JoinWith(" AND ", clauses[..4]) == "a=1 AND b=2 AND c=3 AND d=4";
    assert JoinWith(" AND ", clauses) == "a=1 AND b=2 AND c=3 AND d=4 AND e=5";
    forall k | 0 <= k < 5
      ensures |clauses[k]| > 0 && NoSpace(clauses[k]) && Contains(clauses[k], "=")
    {
      ContainsAt(clauses[k], "=", 1);
    }
    ClausesOfJoin(clauses);
    EqualityChainFloor(JoinWith(" AND ", clauses));
  }

  // ---------------------------------------------------------------------------
  // Joins

  const JoinMethods: seq<string> := ["nested_loop", "hash_join", "merge_join"]

  /** `min(a, b) or 1` on the children's distinct counts. */
  function MinDistinct(left: Statistics, right: Statistics): (d: int)
    ensures d != 0
  {
    var m := if left.distinctCount <= right.distinctCount then left.distinctCount else right.distinctCount;
    if m == 0 then 1 else m
  }

  /** `_estimate_join_cardinality` */
  function JoinCardinality(left: Node, right: Node, join: Node): real
  {
    var condition := Text(join.properties, "condition");
    if condition == "" || !Contains(condition, "=") then left.estimatedRows * right.estimatedRows
    else left.estimatedRows * right.estimatedRows / MinDistinct(left.statistics, right.statistics) as real
  }

  /** An equi-join over children with non-negative distinct counts never exceeds the cross product. */
  lemma EquiJoinBelowCross(left: Node, right: Node, join: Node)
    requires left.estimatedRows >= 0.0 && right.estimatedRows >= 0.0
    requires left.statistics.distinctCount >= 0 && right.statistics.distinctCount >= 0
    ensures 0.0 <= JoinCardinality(left, right, join) <= left.estimatedRows * right.estimatedRows
  {
    var cross := left.estimatedRows * right.estimatedRows;
    var d := MinDistinct(left.statistics, right.statistics) as real;
    assert cross >= 0.0;
    assert d >= 1.0;
    assert cross / d <= cross by {
      assert cross == (cross / d) * d;
      assert (cross / d) * d >= (cross / d) * 1.0;
    }
  }

  /** 1000 and 500 rows with 50 and 200 distinct values, joined on an equality: 10000 rows. */
  lemma EquiJoinExample(left: Node, right: Node, join: Node)
    requires left.estimatedRows == 1000.0 && right.estimatedRows == 500.0
    requires left.statistics.distinctCount == 50 && right.statistics.distinctCount == 200
    requires Contains(Text(join.properties, "condition"), "=")
    ensures JoinCardinality(left, right, join) == 10000.0
  {
    assert Text(join.properties, "condition") != "";
  }

  function NestedLoopCost(l: real, r: real): real { l * r * 0.01 }

  function HashJoinCost(l: real, r: real): real { (l + r) * 0.1 }

  function MergeJoinCost(l: real, r: real, ln: real -> real): real
  {
    l * ln(l + 1.0) * 0.01 + r * ln(r + 1.0) * 0.01 + (l + r) * 0.05
  }

  datatype JoinChoice = JoinChoice(cost: real, name: string)

  /**
   * `_estimate_join_cost`: `min` over the costs in insertion order, so a later
   * method replaces the best so far only when it is strictly cheaper.
   */
  function BestJoin(l: real, r: real, ln: real -> real): (c: JoinChoice)
    ensures c.name in JoinMethods
    ensures c.cost <= NestedLoopCost(l, r) && c.cost <= HashJoinCost(l, r) && c.cost <= MergeJoinCost(l, r, ln)
    ensures c.name == "nested_loop" ==> c.cost == NestedLoopCost(l, r)
    ensures c.name == "hash_join" ==> c.cost == HashJoinCost(l, r) && HashJoinCost(l, r) < NestedLoopCost(l, r)
    ensures c.name == "merge_join" ==>
      c.cost == MergeJoinCost(l, r, ln) && MergeJoinCost(l, r, ln) < NestedLoopCost(l, r) && MergeJoinCost(l, r, ln) < HashJoinCost(l, r)
  {
    var first := JoinChoice(NestedLoopCost(l, r), "nested_loop");
    var second := if HashJoinCost(l, r) < first.cost then JoinChoice(HashJoinCost(l, r), "hash_join") else first;
    if MergeJoinCost(l, r, ln) < second.cost then JoinChoice(MergeJoinCost(l, r, ln), "merge_join") else second
  }

  // ---------------------------------------------------------------------------
  // Estimation

  /**
   * What `_estimate_statistics` needs at one node: a Scan's table, when it
   * names one, is known to the provider; Filter and Project have a child;
   * Join has two.
   */
  predicate LocalReady(provider: Provider, n: Node)
  {
    match n.kind
    case Scan => Text(n.properties, "table") != "" ==> Text(n.properties, "table") in provider
    case Filter => |n.children| >= 1
    case Project => |n.children| >= 1
    case Join => |n.children| >= 2
    case _ => true
  }

  /** `LocalReady` at every node the estimation pass visits. */
  predicate Ready(provider: Provider, n: Node)
    decreases n
  {
    LocalReady(provider, n) &&
    match n.kind
    case Filter => Ready(provider, n.children[0])
    case Project => Ready(provider, n.children[0])
    case Join => Ready(provider, n.children[0]) && Ready(provider, n.children[1])
    case _ => true
  }

  /** A Scan with its table's statistics attached: rows are its row count, cost a tenth of that. */
  function ScanEstimate(n: Node, stats: Statistics): Node
  {
    n.(statistics := stats, estimatedRows := stats.rowCount as real, estimatedCost := stats.rowCount as real * 0.1)
  }

  /** A Filter over its estimated child. */
  function FilterEstimate(n: Node, child: Node, selectivity: real): Node
  {
    FilteredBy(n, child, Scaled(child.estimatedRows, selectivity))
  }

  /** `child.estimated_rows * selectivity` */
  function Scaled(rows: real, selectivity: real): real
  {
    rows * selectivity
  }

  /** A Filter over `child` once the child's rows have been scaled to `scaled`. */
  function FilteredBy(n: Node, child: Node, scaled: real): Node
  {
    var rows := IntMax(1, Truncate(scaled));
    n.(estimatedRows := rows as real, estimatedCost := child.estimatedCost + rows as real * 0.01, children := [child])
  }

  /** A Join over its estimated children, recording the cheapest algorithm. */
  function JoinEstimate(n: Node, left: Node, right: Node, ln: real -> real): Node
  {
    var choice := BestJoin(left.estimatedRows, right.estimatedRows, ln);
    n.(estimatedRows := JoinCardinality(left, right, n),
       estimatedCost := left.estimatedCost + right.estimatedCost + choice.cost,
       properties := Put(n.properties, "join_method", Str(choice.name)),
       children := [left, right])
  }

  /** A Project over its estimated child. */
  function ProjectEstimate(n: Node, child: Node): Node
  {
    n.(estimatedRows := child.estimatedRows,
       estimatedCost := child.estimatedCost + child.estimatedRows * 0.001,
       children := [child])
  }

  /** `_estimate_statistics` */
  function Estimate(env: Env, n: Node): (r: Node)
    requires Ready(env.provider, n)
    ensures Ready(env.provider, r)
    ensures r.kind == n.kind
    decreases n
  {
    match n.kind
    case Scan =>
      var table := Text(n.properties, "table");
      if table == "" then n else ScanEstimate(n, env.provider[table])
    case Filter =>
      FilterEstimate(n, Estimate(env, n.children[0]), Selectivity(Text(n.properties, "condition")))
    case Join =>
      JoinEstimate(n, Estimate(env, n.children[0]), Estimate(env, n.children[1]), env.ln)
    case Project =>
      ProjectEstimate(n, Estimate(env, n.children[0]))
    case _ => n
  }

  /** A Scan naming a table takes the provider's statistics, its row count, and a tenth of that as I/O cost. */
  lemma EstimateScan(env: Env, n: Node)
    requires n.kind == Scan && Ready(env.provider, n)
    ensures var table := Text(n.properties, "table");
      var r := Estimate(env, n);
      if table == "" then r == n
      else
        r.statistics == env.provider[table]
        && r.estimatedRows == env.provider[table].rowCount as real
        && r.estimatedCost == 0.1 * env.provider[table].rowCount as real
        && r.children == n.children && r.properties == n.properties
  {
  }

  lemma ScaleDown(x: real, f: real)
    requires x >= 0.0 && 0.0 <= f <= 1.0
    ensures 0.0 <= x * f <= x
  {
    assert x * f <= x * 1.0;
  }

  lemma ScaleNonPositive(x: real, f: real)
    requires x < 0.0 && 0.0 <= f
    ensures x * f <= 0.0
  {
    assert (-x) * f >= 0.0;
  }

  /** The fields a Filter's estimate sets, and the ones it keeps. */
  lemma FilterFields(n: Node, child: Node, scaled: real)
    ensures var r := FilteredBy(n, child, scaled);
      && r.estimatedRows == IntMax(1, Truncate(scaled)) as real
      && r.estimatedCost == child.estimatedCost + r.estimatedRows * 0.01
      && r.children == [child] && r.properties == n.properties && r.statistics == n.statistics
  {
  }

  /** The rows of a Filter: at least one, and at most the child's rows (or one). */
  lemma FilterRows(n: Node, child: Node, selectivity: real)
    requires 0.01 <= selectivity <= 1.0
    ensures var r := FilterEstimate(n, child, selectivity);
      && 1.0 <= r.estimatedRows <= RealMax(1.0, child.estimatedRows)
      && r.estimatedCost >= child.estimatedCost + 0.01
      && r.children == [child] && r.properties == n.properties && r.statistics == n.statistics
  {
    var x := child.estimatedRows;
    var y := Scaled(x, selectivity);
    if x >= 0.0 {
      ScaleDown(x, selectivity);
      assert 0.0 <= y <= x;
    } else {
      ScaleNonPositive(x, selectivity);
      assert y <= 0.0;
    }
    TruncatedRows(x, y);
  }

  /** Truncating a scaled-down row count and raising it to one stays within one and the count. */
  lemma TruncatedRows(x: real, y: real)
    requires x >= 0.0 ==> 0.0 <= y <= x
    requires x < 0.0 ==> y <= 0.0
    ensures 1.0 <= IntMax(1, Truncate(y)) as real <= RealMax(1.0, x)
  {
  }

  /** A Filter's estimate is its own node over the estimated child, with the child's rows scaled by the selectivity. */
  lemma EstimateFilter(env: Env, n: Node)
    requires n.kind == Filter && Ready(env.provider, n)
    ensures var child := Estimate(env, n.children[0]);
      Estimate(env, n) == FilteredBy(n, child, Scaled(child.estimatedRows, Selectivity(Text(n.properties, "condition"))))
  {
  }

  /**
   * A Filter's rows are its child's rows scaled by the condition's selectivity,
   * truncated and raised to at least one; it adds a hundredth of a unit per row.
   * So it keeps at least one row and never more than its child estimates (or one).
   */
  lemma EstimateFilterBounds(env: Env, n: Node)
    requires n.kind == Filter && Ready(env.provider, n)
    ensures var child := Estimate(env, n.children[0]);
      var r := Estimate(env, n);
      var selectivity := Selectivity(Text(n.properties, "condition"));
      && r.estimatedRows == IntMax(1, Truncate(Scaled(child.estimatedRows, selectivity))) as real
      && r.estimatedCost == child.estimatedCost + r.estimatedRows * 0.01
    ensures var child := Estimate(env, n.children[0]);
      var r := Estimate(env, n);
      && 1.0 <= r.estimatedRows <= RealMax(1.0, child.estimatedRows)
      && r.estimatedCost >= child.estimatedCost + 0.01
      && r.children == [child]
      && r.properties == n.properties && r.statistics == n.statistics
  {
    var child := Estimate(env, n.children[0]);
    var selectivity := Selectivity(Text(n.properties, "condition"));
    EstimateFilter(env, n);
    FilterFields(n, child, Scaled(child.estimatedRows, selectivity));
    FilterRows(n, child, selectivity);
  }

  /** A Project passes its child's rows through and adds a thousandth of a unit per row. */
  lemma EstimateProject(env: Env, n: Node)
    requires n.kind == Project && Ready(env.provider, n)
    ensures var child := Estimate(env, n.children[0]);
      var r := Estimate(env, n);
      r.estimatedRows == child.estimatedRows
      && r.estimatedCost == child.estimatedCost + 0.001 * child.estimatedRows
      && r.children == [child]
  {
  }

  /**
   * A Join records the cheapest algorithm in `join_method`, whatever it held
   * before, leaves its other properties alone, and keeps exactly its first
   * two children, estimated.
   */
  lemma EstimateJoin(env: Env, n: Node)
    requires n.kind == Join && Ready(env.provider, n)
    ensures var left := Estimate(env, n.children[0]);
      var right := Estimate(env, n.children[1]);
      var r := Estimate(env, n);
      var choice := BestJoin(left.estimatedRows, right.estimatedRows, env.ln);
      Get(r.properties, "join_method") == Some(Str(choice.name))
      && (forall k :: k != "join_method" ==> Get(r.properties, k) == Get(n.properties, k))
      && r.estimatedRows == JoinCardinality(left, right, n)
      && r.estimatedCost == left.estimatedCost + right.estimatedCost + choice.cost
      && r.estimatedCost <= left.estimatedCost + right.estimatedCost + HashJoinCost(left.estimatedRows, right.estimatedRows)
      && r.estimatedCost <= left.estimatedCost + right.estimatedCost + NestedLoopCost(left.estimatedRows, right.estimatedRows)
      && r.estimatedCost <= left.estimatedCost + right.estimatedCost + MergeJoinCost(left.estimatedRows, right.estimatedRows, env.ln)
      && r.children == [left, right]
  {
  }

  /** Aggregate, Sort and Limit nodes, and everything under them, are left as they are. */
  lemma EstimateUntouched(env: Env, n: Node)
    requires n.kind == Aggregate || n.kind == Sort || n.kind == Limit
    ensures Ready(env.provider, n) && Estimate(env, n) == n
  {
  }

  /** Estimating an estimated tree again changes nothing. */
  lemma {:induction false} EstimateIdempotent(env: Env, n: Node)
    requires Ready(env.provider, n)
    ensures Estimate(env, Estimate(env, n)) == Estimate(env, n)
    decreases n
  {
    var r := Estimate(env, n);
    match n.kind
    case Scan =>
    case Filter =>
      EstimateIdempotent(env, n.children[0]);
      var c := Estimate(env, n.children[0]);
      var sel := Selectivity(Text(n.properties, "condition"));
      assert r == FilterEstimate(n, c, sel);
      assert Estimate(env, r) == FilterEstimate(r, Estimate(env, c), sel);
      assert FilterEstimate(r, c, sel) == r;
    case Project =>
      EstimateIdempotent(env, n.children[0]);
      assert r.children[0] == Estimate(env, n.children[0]);
    case Join =>
      EstimateIdempotent(env, n.children[0]);
      EstimateIdempotent(env, n.children[1]);
      var left := Estimate(env, n.children[0]);
      var right := Estimate(env, n.children[1]);
      var choice := BestJoin(left.estimatedRows, right.estimatedRows, env.ln);
      assert Text(r.properties, "condition") == Text(n.properties, "condition");
      PutTwice(n.properties, "join_method", Str(choice.name), Str(choice.name));
    case _ =>
  }

  /** The estimates a parent reads from a child. */
  predicate SameEstimate(a: Node, b: Node)
  {
    a.estimatedCost == b.estimatedCost && a.estimatedRows == b.estimatedRows && a.statistics == b.statistics
  }

  lemma FilterOverSame(n: Node, m: Node, cn: Node, cm: Node, selectivity: real)
    requires n.statistics == m.statistics && SameEstimate(cn, cm)
    ensures SameEstimate(FilterEstimate(n, cn, selectivity), FilterEstimate(m, cm, selectivity))
  {
    assert cn.estimatedRows * selectivity == cm.estimatedRows * selectivity;
  }

  lemma ProjectOverSame(n: Node, m: Node, cn: Node, cm: Node)
    requires n.statistics == m.statistics && SameEstimate(cn, cm)
    ensures SameEstimate(ProjectEstimate(n, cn), ProjectEstimate(m, cm))
  {
  }

  lemma JoinOverSame(n: Node, m: Node, ln: Node, lm: Node, rn: Node, rm: Node, log: real -> real)
    requires n.statistics == m.statistics && n.properties == m.properties
    requires SameEstimate(ln, lm) && SameEstimate(rn, rm)
    ensures SameEstimate(JoinEstimate(n, ln, rn, log), JoinEstimate(m, lm, rm, log))
  {
    assert BestJoin(ln.estimatedRows, rn.estimatedRows, log) == BestJoin(lm.estimatedRows, rm.estimatedRows, log);
    assert JoinCardinality(ln, rn, n) == JoinCardinality(lm, rm, m);
  }

  /** Estimation reads a child only through its estimate, so children with the same estimates give the same one. */
  lemma EstimateOverSameChildren(env: Env, n: Node, m: Node)
    requires Ready(env.provider, n) && Ready(env.provider, m)
    requires n.kind == m.kind && n.properties == m.properties && SameEstimate(n, m)
    requires n.kind == Filter || n.kind == Project ==>
      SameEstimate(Estimate(env, n.children[0]), Estimate(env, m.children[0]))
    requires n.kind == Join ==>
      SameEstimate(Estimate(env, n.children[0]), Estimate(env, m.children[0]))
      && SameEstimate(Estimate(env, n.children[1]), Estimate(env, m.children[1]))
    ensures SameEstimate(Estimate(env, n), Estimate(env, m))
  {
    match n.kind
    case Scan =>
    case Filter =>
      var sel := Selectivity(Text(n.properties, "condition"));
      FilterOverSame(n, m, Estimate(env, n.children[0]), Estimate(env, m.children[0]), sel);
    case Project =>
      ProjectOverSame(n, m, Estimate(env, n.children[0]), Estimate(env, m.children[0]));
    case Join =>
      JoinOverSame(n, m, Estimate(env, n.children[0]), Estimate(env, m.children[0]),
        Estimate(env, n.children[1]), Estimate(env, m.children[1]), env.ln);
    case _ =>
  }

  // ---------------------------------------------------------------------------
  // Search

  /** A childless Join with the node's properties and `join_method` set to `m`. */
  function MethodAlternative(props: Props, m: string): (a: Node)
    ensures a.kind == Join && a.children == []
    ensures Get(a.properties, "join_method") == Some(Str(m))
  {
    NewNode(Join, [], Put(props, "join_method", Str(m)))
  }

  /** The alternative for method `m`, unless `m` is the current method. */
  function UnlessCurrent(props: Props, m: string): seq<Node>
  {
    if Get(props, "join_method") != Some(Str(m)) then [MethodAlternative(props, m)] else []
  }

  /** The method alternatives of the three known methods, in their order. */
  lemma JoinMethodAlternatives(p: Props)
    ensures MethodAlternatives(p, JoinMethods)
      == UnlessCurrent(p, "nested_loop") + UnlessCurrent(p, "hash_join") + UnlessCurrent(p, "merge_join")
  {
    var m2 := JoinMethods[..2];
    var m1 := m2[..1];
    assert m1[..0] == [];
    assert m1 == ["nested_loop"];
    assert m2 == ["nested_loop", "hash_join"];
    assert MethodAlternatives(p, m1) == UnlessCurrent(p, "nested_loop");
  }

  /** `_generate_alternatives`' method alternatives: one per method that differs from the current one. */
  function MethodAlternatives(props: Props, methods: seq<string>): (alts: seq<Node>)
    ensures forall a :: a in alts ==> a.kind == Join
    decreases |methods|
  {
    if |methods| == 0 then []
    else
      var m := methods[|methods| - 1];
      MethodAlternatives(props, methods[..|methods| - 1])
        + UnlessCurrent(props, m)
  }

  lemma MethodAlternativesStep(props: Props, methods: seq<string>, i: nat)
    requires i < |methods|
    ensures MethodAlternatives(props, methods[..i + 1]) == MethodAlternatives(props, methods[..i])
      + UnlessCurrent(props, methods[i])
  {
    assert methods[..i + 1][..i] == methods[..i];
  }

  /** The method alternatives are exactly one per listed method other than the current one. */
  lemma {:induction false} MethodAlternativesMembers(props: Props, methods: seq<string>)
    ensures forall a :: a in MethodAlternatives(props, methods) <==>
      exists m :: m in methods && Get(props, "join_method") != Some(Str(m)) && a == MethodAlternative(props, m)
    decreases |methods|
  {
    if |methods| > 0 {
      var init := methods[..|methods| - 1];
      MethodAlternativesMembers(props, init);
      assert forall m :: m in methods <==> m in init || m == methods[|methods| - 1];
    }
  }

  /** The swapped join, when there are exactly two children, then the method alternatives. */
  function Alternatives(n: Node): (alts: seq<Node>)
    ensures forall a :: a in alts ==> a.kind == Join
  {
    if n.kind != Join then []
    else
      (if |n.children| == 2 then [NewNode(Join, [n.children[1], n.children[0]], n.properties)] else [])
        + MethodAlternatives(n.properties, JoinMethods)
  }

  /**
   * Non-Joins get no alternatives. A Join gets the swap (with exactly two
   * children) plus two method alternatives when its `join_method` is one of
   * the three methods, and three otherwise.
   */
  lemma AlternativesCount(n: Node)
    ensures n.kind != Join ==> Alternatives(n) == []
    ensures n.kind == Join ==>
      |Alternatives(n)| == (if |n.children| == 2 then 1 else 0)
        + (if Get(n.properties, "join_method") in {Some(Str("nested_loop")), Some(Str("hash_join")), Some(Str("merge_join"))} then 2 else 3)
  {
    if n.kind == Join {
      var p := n.properties;
      var m2 := JoinMethods[..2];
      var m1 := m2[..1];
      assert m1[..0] == [];
      assert m1 == ["nested_loop"];
      assert m2 == ["nested_loop", "hash_join"];
      assert |MethodAlternatives(p, m1[..0])| == 0;
      var c1 := |MethodAlternatives(p, m1)|;
      assert c1 == (if Get(p, "join_method") != Some(Str("nested_loop")) then 1 else 0);
      var c2 := |MethodAlternatives(p, m2)|;
      assert c2 == c1 + (if Get(p, "join_method") != Some(Str("hash_join")) then 1 else 0);
    }
  }

  /** The method alternatives of a node whose current method is `current`, in order. */
  function ExpectedMethodAlternatives(p: Props, current: Option<Value>): seq<Node>
  {
    var nl := MethodAlternative(p, "nested_loop");
    var hj := MethodAlternative(p, "hash_join");
    var mj := MethodAlternative(p, "merge_join");
    if current == Some(Str("nested_loop")) then [hj, mj]
    else if current == Some(Str("hash_join")) then [nl, mj]
    else if current == Some(Str("merge_join")) then [nl, hj]
    else [nl, hj, mj]
  }

  /** Three optional parts, each empty or a single element, concatenate to the elements present. */
  lemma ConcatParts<T>(a: seq<T>, b: seq<T>, c: seq<T>, x: T, y: T, z: T)
    requires (a == [] || a == [x]) && (b == [] || b == [y]) && (c == [] || c == [z])
    ensures a == [] && b == [y] && c == [z] ==> a + b + c == [y, z]
    ensures a == [x] && b == [] && c == [z] ==> a + b + c == [x, z]
    ensures a == [x] && b == [y] && c == [] ==> a + b + c == [x, y]
    ensures a == [x] && b == [y] && c == [z] ==> a + b + c == [x, y, z]
  {
  }

  lemma MethodAlternativesByCurrent(p: Props)
    ensures MethodAlternatives(p, JoinMethods) == ExpectedMethodAlternatives(p, Get(p, "join_method"))
  {
    var current := Get(p, "join_method");
    JoinMethodAlternatives(p);
    assert |"nested_loop"| == 11 && |"hash_join"| == 9 && |"merge_join"| == 10;
    var nl, hj, mj := MethodAlternative(p, "nested_loop"), MethodAlternative(p, "hash_join"), MethodAlternative(p, "merge_join");
    ConcatParts(UnlessCurrent(p, "nested_loop"), UnlessCurrent(p, "hash_join"), UnlessCurrent(p, "merge_join"), nl, hj, mj);
  }

  /**
   * The alternatives of a Join, in order: the swapped join (with exactly two
   * children), then one childless Join per method other than the current one,
   * in the order nested loop, hash join, merge join.
   */
  lemma AlternativesInOrder(n: Node)
    requires n.kind == Join
    ensures var p := n.properties;
      var current := Get(p, "join_method");
      var swap := if |n.children| == 2 then [NewNode(Join, [n.children[1], n.children[0]], p)] else [];
      var nl := MethodAlternative(p, "nested_loop");
      var hj := MethodAlternative(p, "hash_join");
      var mj := MethodAlternative(p, "merge_join");
      Alternatives(n) == swap +
        (if current == Some(Str("nested_loop")) then [hj, mj]
         else if current == Some(Str("hash_join")) then [nl, mj]
         else if current == Some(Str("merge_join")) then [nl, hj]
         else [nl, hj, mj])
  {
    MethodAlternativesByCurrent(n.properties);
  }

  /** Which children `_estimate_statistics` itself estimates at a node of this kind. */
  predicate Estimated(kind: NodeType, i: nat)
  {
    ((kind == Filter || kind == Project) && i == 0) || (kind == Join && i < 2)
  }

  /**
   * What `_find_optimal_plan` needs: at every inner node, the node is locally
   * ready, and every child it estimates that is a leaf (and so comes back
   * from the search as it is) is ready too.
   */
  predicate Searchable(provider: Provider, n: Node)
    decreases n
  {
    |n.children| == 0 ||
    (LocalReady(provider, n) &&
     forall i :: 0 <= i < |n.children| ==>
       Searchable(provider, n.children[i])
       && (Estimated(n.kind, i) && |n.children[i].children| == 0 ==> Ready(provider, n.children[i])))
  }

  /**
   * The best of `best` and the alternatives, each estimated over `kids`,
   * taken left to right; a candidate wins only when it is strictly cheaper
   * than the best so far.
   */
  function Pick(env: Env, best: Node, alts: seq<Node>, kids: seq<Node>): (r: Node)
    requires Ready(env.provider, best)
    requires |alts| == 0 || (|kids| >= 2 && Ready(env.provider, kids[0]) && Ready(env.provider, kids[1]))
    requires forall a :: a in alts ==> a.kind == Join
    ensures Ready(env.provider, r)
    ensures r.estimatedCost <= best.estimatedCost
    decreases |alts|
  {
    if |alts| == 0 then best
    else
      var candidate := Estimate(env, alts[0].(children := kids));
      Pick(env, if candidate.estimatedCost < best.estimatedCost then candidate else best, alts[1..], kids)
  }

  lemma PickStep(env: Env, best: Node, alts: seq<Node>, kids: seq<Node>, i: nat)
    requires Ready(env.provider, best) && i < |alts|
    requires |kids| >= 2 && Ready(env.provider, kids[0]) && Ready(env.provider, kids[1])
    requires forall a :: a in alts ==> a.kind == Join
    ensures alts[i] in alts
    ensures var candidate := Estimate(env, alts[i].(children := kids));
      Pick(env, best, alts[i..], kids)
        == Pick(env, if candidate.estimatedCost < best.estimatedCost then candidate else best, alts[i + 1..], kids)
  {
    assert alts[i..][0] == alts[i];
    assert alts[i..][1..] == alts[i + 1..];
  }

  /** `_find_optimal_plan` */
  function Search(env: Env, n: Node): (r: Node)
    requires Searchable(env.provider, n)
    ensures |n.children| == 0 ==> r == n
    ensures |n.children| > 0 ==> Ready(env.provider, r)
    decreases n, 1
  {
    if |n.children| == 0 then n
    else
      var kids := SearchedChildren(env, n);
      Pick(env, Estimate(env, n.(children := kids)), Alternatives(n), kids)
  }

  /** The optimized children. */
  function SearchedChildren(env: Env, n: Node): (kids: seq<Node>)
    requires Searchable(env.provider, n)
    ensures |kids| == |n.children|
    ensures forall i :: 0 <= i < |kids| && Estimated(n.kind, i) ==> Ready(env.provider, kids[i])
    decreases n, 0
  {
    seq(|n.children|, i requires 0 <= i < |n.children| => Search(env, n.children[i]))
  }

  /** One child of a searchable node: searchable itself, and searched in place. */
  lemma SearchedChild(env: Env, n: Node, i: nat, done: seq<Node>)
    requires Searchable(env.provider, n) && i < |n.children|
    requires done == SearchedChildren(env, n)[..i]
    ensures Searchable(env.provider, n.children[i])
    ensures done + [Search(env, n.children[i])] == SearchedChildren(env, n)[..i + 1]
  {
    var kids := SearchedChildren(env, n);
    assert kids[i] == Search(env, n.children[i]);
    SliceSnoc(kids, i);
  }

  lemma SliceSnoc<T>(s: seq<T>, i: nat)
    requires i < |s|
    ensures s[..i + 1] == s[..i] + [s[i]]
  {
  }

  /** The alternatives, each estimated over `kids`. */
  function Candidates(env: Env, alts: seq<Node>, kids: seq<Node>): (cs: seq<Node>)
    requires |alts| == 0 || (|kids| >= 2 && Ready(env.provider, kids[0]) && Ready(env.provider, kids[1]))
    requires forall a :: a in alts ==> a.kind == Join
    ensures |cs| == |alts|
    decreases |alts|
  {
    if |alts| == 0 then []
    else [Estimate(env, alts[0].(children := kids))] + Candidates(env, alts[1..], kids)
  }

  /** The pick is the best so far, or a candidate strictly cheaper than it. */
  lemma {:induction false} PickStrict(env: Env, best: Node, alts: seq<Node>, kids: seq<Node>)
    requires Ready(env.provider, best)
    requires |alts| == 0 || (|kids| >= 2 && Ready(env.provider, kids[0]) && Ready(env.provider, kids[1]))
    requires forall a :: a in alts ==> a.kind == Join
    ensures var r := Pick(env, best, alts, kids);
      r == best || (r in Candidates(env, alts, kids) && r.estimatedCost < best.estimatedCost)
    decreases |alts|
  {
    if |alts| > 0 {
      var candidate := Estimate(env, alts[0].(children := kids));
      var next := if candidate.estimatedCost < best.estimatedCost then candidate else best;
      PickStrict(env, next, alts[1..], kids);
    }
  }

  /** When no candidate is strictly cheaper than the best so far, the best so far stays. */
  lemma {:induction false} PickKeepsBest(env: Env, best: Node, alts: seq<Node>, kids: seq<Node>)
    requires Ready(env.provider, best)
    requires |alts| == 0 || (|kids| >= 2 && Ready(env.provider, kids[0]) && Ready(env.provider, kids[1]))
    requires forall a :: a in alts ==> a.kind == Join
    requires forall i :: 0 <= i < |alts| ==> Estimate(env, alts[i].(children := kids)).estimatedCost >= best.estimatedCost
    ensures Pick(env, best, alts, kids) == best
    decreases |alts|
  {
    if |alts| > 0 {
      assert forall i :: 0 <= i < |alts[1..]| ==> alts[1..][i] == alts[i + 1];
      PickKeepsBest(env, best, alts[1..], kids);
    }
  }

  /** Two Joins over the same children cost the same: a Join's cost reads only its children. */
  lemma JoinCostReadsChildren(env: Env, a: Node, b: Node)
    requires a.kind == Join && b.kind == Join && a.children == b.children
    requires Ready(env.provider, a)
    ensures Ready(env.provider, b) && Estimate(env, a).estimatedCost == Estimate(env, b).estimatedCost
  {
  }

  /**
   * The search never picks an alternative: every alternative is a Join over
   * the same optimized children, so none is strictly cheaper than the
   * re-estimated node itself.
   */
  lemma SearchIsBaseline(env: Env, n: Node)
    requires Searchable(env.provider, n) && |n.children| > 0
    ensures var kids := SearchedChildren(env, n);
      Ready(env.provider, n.(children := kids))
      && Search(env, n) == Estimate(env, n.(children := kids))
  {
    var kids := SearchedChildren(env, n);
    var base := n.(children := kids);
    var alts := Alternatives(n);
    forall i | 0 <= i < |alts|
      ensures Estimate(env, alts[i].(children := kids)).estimatedCost >= Estimate(env, base).estimatedCost
    {
      assert alts[i] in alts;
      JoinCostReadsChildren(env, base, alts[i].(children := kids));
    }
    PickKeepsBest(env, Estimate(env, base), alts, kids);
  }

  /**
   * The search leaves every estimate a parent reads as the estimation pass
   * computed it: re-estimating the searched node gives the same cost, rows
   * and statistics as estimating the node itself.
   */
  lemma {:induction false} SearchKeepsEstimate(env: Env, n: Node)
    requires Ready(env.provider, n) && Searchable(env.provider, n)
    ensures Ready(env.provider, Search(env, n))
    ensures SameEstimate(Estimate(env, Search(env, n)), Estimate(env, n))
    decreases n
  {
    if |n.children| > 0 {
      var kids := SearchedChildren(env, n);
      var m := n.(children := kids);
      SearchIsBaseline(env, n);
      EstimateIdempotent(env, m);
      match n.kind
      case Filter =>
        SearchKeepsEstimate(env, n.children[0]);
        EstimateOverSameChildren(env, n, m);
      case Project =>
        SearchKeepsEstimate(env, n.children[0]);
        EstimateOverSameChildren(env, n, m);
      case Join =>
        SearchKeepsEstimate(env, n.children[0]);
        SearchKeepsEstimate(env, n.children[1]);
        EstimateOverSameChildren(env, n, m);
      case _ =>
        EstimateOverSameChildren(env, n, m);
    }
  }

  /**
   * `optimize` returns a plan with exactly the bottom-up estimated cost and
   * rows of its input, so in particular never a costlier one.
   */
  lemma OptimizeKeepsCost(env: Env, plan: Node)
    requires Ready(env.provider, plan) && Searchable(env.provider, Estimate(env, plan))
    ensures SameEstimate(Search(env, Estimate(env, plan)), Estimate(env, plan))
  {
    var e := Estimate(env, plan);
    if |e.children| > 0 {
      SearchKeepsEstimate(env, e);
      SearchIsBaseline(env, e);
      EstimateIdempotent(env, e.(children := SearchedChildren(env, e)));
      EstimateIdempotent(env, plan);
    }
  }

  // ---------------------------------------------------------------------------
  // The optimizer object

  class CostBasedOptimizer {
    /** `stats_provider`, with `math.log` beside it. */
    const env: Env

    const joinMethods: seq<string> := JoinMethods

    constructor (statisticsProvider: Provider, ln: real -> real)
      ensures env == Env(statisticsProvider, ln)
    {
      env := Env(statisticsProvider, ln);
    }

    /** Estimate the plan bottom-up, then search it. */
    method Optimize(plan: Node) returns (result: Node)
      requires Ready(env.provider, plan) && Searchable(env.provider, Estimate(env, plan))
      ensures result == Search(env, Estimate(env, plan))
      ensures SameEstimate(result, Estimate(env, plan))
    {
      var planWithStats := EstimateStatistics(plan);
      result := FindOptimalPlan(planWithStats);
      OptimizeKeepsCost(env, plan);
    }

    method EstimateStatistics(node: Node) returns (result: Node)
      requires Ready(env.provider, node)
      ensures result == Estimate(env, node)
      decreases node
    {
      match node.kind
      case Scan =>
        var tableName := Text(node.properties, "table");
        result := node;
        if tableName != "" {
          var stats := env.provider[tableName];
          result := ScanEstimate(node, stats);
        }
      case Filter =>
        var child := EstimateStatistics(node.children[0]);
        var condition := Text(node.properties, "condition");
        var selectivity := EstimateSelectivity(condition);
        result := FilterEstimate(node, child, selectivity);
      case Join =>
        var left := EstimateStatistics(node.children[0]);
        var right := EstimateStatistics(node.children[1]);
        result := JoinEstimate(node, left, right, env.ln);
      case Project =>
        var child := EstimateStatistics(node.children[0]);
        result := ProjectEstimate(node, child);
      case _ =>
        result := node;
    }

    method EstimateSelectivity(condition: string) returns (selectivity: real)
      ensures selectivity == Selectivity(condition)
      ensures 0.01 <= selectivity <= 1.0
    {
      if condition == "" {
        return 1.0;
      }
      var conditions := Clauses(condition);
      var overall := 1.0;
      var i := 0;
      while i < |conditions|
        invariant 0 <= i <= |conditions|
        invariant overall == Product(conditions[..i])
      {
        assert conditions[..i + 1][..i] == conditions[..i];
        overall := overall * Factor(conditions[i]);
        i := i + 1;
      }
      assert conditions[..i] == conditions;
      selectivity := RealMax(0.01, overall);
    }

    method FindOptimalPlan(node: Node) returns (bestPlan: Node)
      requires Searchable(env.provider, node)
      ensures bestPlan == Search(env, node)
      decreases node, 1
    {
      if |node.children| == 0 {
        return node;
      }
      var alternatives := GenerateAlternatives(node);
      var optimizedChildren := OptimizeChildren(node);
      bestPlan := EstimateStatistics(node.(children := optimizedChildren));
      var bestCost := bestPlan.estimatedCost;
      assert alternatives[0..] == alternatives;
      ghost var joinOverTwo := |alternatives| == 0 ||
        (|optimizedChildren| >= 2 && Ready(env.provider, optimizedChildren[0]) && Ready(env.provider, optimizedChildren[1]));
      assert joinOverTwo;
      var i := 0;
      while i < |alternatives|
        invariant 0 <= i <= |alternatives|
        invariant bestCost == bestPlan.estimatedCost && Ready(env.provider, bestPlan)
        invariant Pick(env, bestPlan, alternatives[i..], optimizedChildren) == Search(env, node)
      {
        PickStep(env, bestPlan, alternatives, optimizedChildren, i);
        var alternative := EstimateStatistics(alternatives[i].(children := optimizedChildren));
        if alternative.estimatedCost < bestCost {
          bestPlan := alternative;
          bestCost := alternative.estimatedCost;
        }
        i := i + 1;
      }
    }

    /** `[self._find_optimal_plan(child) for child in node.children]` */
    method OptimizeChildren(node: Node) returns (optimizedChildren: seq<Node>)
      requires Searchable(env.provider, node)
      ensures optimizedChildren == SearchedChildren(env, node)
      decreases node, 0
    {
      optimizedChildren := [];
      var i := 0;
      while i < |node.children|
        invariant 0 <= i <= |node.children|
        invariant optimizedChildren == SearchedChildren(env, node)[..i]
      {
        SearchedChild(env, node, i, optimizedChildren);
        var child := FindOptimalPlan(node.children[i]);
        optimizedChildren := optimizedChildren + [child];
        i := i + 1;
      }
    }

    method GenerateAlternatives(node: Node) returns (alternatives: seq<Node>)
      ensures alternatives == Alternatives(node)
    {
      alternatives := [];
      if node.kind == Join {
        if |node.children| == 2 {
          var swapped := NewNode(Join, [node.children[1], node.children[0]], node.properties);
          alternatives := alternatives + [swapped];
        }
        ghost var swaps := alternatives;
        ghost var added: seq<Node> := [];
        var i := 0;
        while i < |joinMethods|
          invariant 0 <= i <= |joinMethods|
          invariant alternatives == swaps + added
          invariant added == MethodAlternatives(node.properties, joinMethods[..i])
        {
          var joinMethod := joinMethods[i];
          MethodAlternativesStep(node.properties, joinMethods, i);
          if Get(node.properties, "join_method") != Some(Str(joinMethod)) {
            var altNode := NewNode(Join, [], Put(node.properties, "join_method", Str(joinMethod)));
            assert UnlessCurrent(node.properties, joinMethod) == [altNode];
            AppendAssoc(swaps, added, [altNode]);
            alternatives := alternatives + [altNode];
            added := added + [altNode];
          } else {
            assert UnlessCurrent(node.properties, joinMethod) == [];
            assert added + [] == added;
          }
          i := i + 1;
        }
        assert joinMethods[..i] == JoinMethods;
        assert added == MethodAlternatives(node.properties, JoinMethods);
        assert swaps == (if |node.children| == 2 then [NewNode(Join, [node.children[1], node.children[0]], node.properties)] else []);
      }
    }
  }
}
