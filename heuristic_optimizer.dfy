/**
 * The heuristic rewriter: a bottom-up rewrite pass that tries an ordered list
 * of rules at every node (the first rule that returns a new node wins), run
 * repeatedly until a pass leaves the plan structurally unchanged or ten
 * passes have run.
 */
module Heuristic {
  import opened Wrappers
  import opened Strings
  import opened Plan

  const MaxIterations: nat := 10

  /**
   * What a rule returns. `fired` is the optimizer's identity test `result != new_node`:
   * true exactly when the rule built a new node.
   */
  datatype Outcome = Outcome(fired: bool, node: Node)

  /** A rewrite rule, as the bound methods in the optimizer's rule list are. */
  type Rule = Node -> Outcome

  // ---------------------------------------------------------------------------
  // Column attribution

  /** Length of the longest prefix of `s` made of word characters. */
  function WordRun(s: string): (k: nat)
    ensures k <= |s|
    ensures forall i :: 0 <= i < k ==> IsWordChar(s[i])
    ensures k < |s| ==> !IsWordChar(s[k])
    ensures |s| > 0 && IsWordChar(s[0]) ==> k >= 1
    decreases |s|
  {
    if |s| == 0 || !IsWordChar(s[0]) then 0 else 1 + WordRun(s[1..])
  }

  /**
   * `re.findall(r'\b[a-zA-Z_][a-zA-Z0-9_]*\b', s)`: every maximal run of word
   * characters that does not start with a digit, left to right.
   */
  function Words(s: string): seq<string>
    decreases |s|
  {
    if |s| == 0 then []
    else if !IsWordChar(s[0]) then Words(s[1..])
    else
      var k := WordRun(s);
      (if IsDigit(s[0]) then [] else [s[..k]]) + Words(s[k..])
  }

  /** Every extracted word is an identifier: non-empty, not starting with a digit, word characters only. */
  lemma {:induction false} WordsAreIdentifiers(s: string)
    ensures forall w :: w in Words(s) ==>
      |w| > 0 && (IsLetter(w[0]) || w[0] == '_') && forall i :: 0 <= i < |w| ==> IsWordChar(w[i])
    decreases |s|
  {
    if |s| > 0 {
      if !IsWordChar(s[0]) {
        WordsAreIdentifiers(s[1..]);
      } else {
        WordsAreIdentifiers(s[WordRun(s)..]);
      }
    }
  }

  /**
   * `s[i..j]` is a match of `\b[a-zA-Z_][a-zA-Z0-9_]*\b`: a run of word
   * characters bounded on both sides by a non-word character or an end of
   * `s`, whose first character is not a digit.
   */
  predicate IdentifierAt(s: string, i: int, j: int)
  {
    && 0 <= i < j <= |s|
    && (i == 0 || !IsWordChar(s[i - 1]))
    && (j == |s| || !IsWordChar(s[j]))
    && (forall m :: i <= m < j ==> IsWordChar(s[m]))
    && !IsDigit(s[i])
  }

  /** Cutting `s` at `d`, where no word straddles the cut, shifts the identifiers after it by `d`. */
  lemma ShiftIdentifier(s: string, d: int, i: int, j: int)
    requires 0 < d <= |s| && 0 <= i <= j <= |s| - d
    requires !IsWordChar(s[d - 1]) || d == |s| || !IsWordChar(s[d])
    ensures IdentifierAt(s[d..], i, j) <==> IdentifierAt(s, i + d, j + d)
    ensures s[d..][i..j] == s[i + d..j + d]
  {
    if i == 0 && d < |s| && i < j {
      assert s[d..][0] == s[d];
    }
  }

  /** The identifiers that start inside the first run of word characters of `s`. */
  lemma LeadingIdentifier(s: string)
    requires |s| > 0 && IsWordChar(s[0])
    ensures IdentifierAt(s, 0, WordRun(s)) <==> !IsDigit(s[0])
    ensures forall i, j :: IdentifierAt(s, i, j) && i < WordRun(s) ==> i == 0 && j == WordRun(s)
  {
  }

  /** `ws` holds exactly the matches of the identifier pattern in `s`. */
  ghost predicate AreMatches(ws: seq<string>, s: string)
  {
    forall w :: w in ws <==> exists i, j :: IdentifierAt(s, i, j) && w == s[i..j]
  }

  /** `ws` holds exactly the matches of the identifier pattern in `s` that start at `d` or later. */
  ghost predicate AreMatchesFrom(ws: seq<string>, s: string, d: int)
  {
    forall w :: w in ws <==> exists i, j :: IdentifierAt(s, i, j) && d <= i && w == s[i..j]
  }

  /** The matches in `s[d..]`, where no word straddles the cut, are the matches in `s` from `d` on. */
  lemma ShiftMatches(ws: seq<string>, s: string, d: int)
    requires 0 < d <= |s| && (!IsWordChar(s[d - 1]) || d == |s| || !IsWordChar(s[d]))
    requires AreMatches(ws, s[d..])
    ensures AreMatchesFrom(ws, s, d)
  {
    forall w | w in ws ensures exists i, j :: IdentifierAt(s, i, j) && d <= i && w == s[i..j] {
      var i, j :| IdentifierAt(s[d..], i, j) && w == s[d..][i..j];
      ShiftIdentifier(s, d, i, j);
      assert IdentifierAt(s, i + d, j + d) && d <= i + d && w == s[i + d..j + d];
    }
    forall w | exists i, j :: IdentifierAt(s, i, j) && d <= i && w == s[i..j] ensures w in ws {
      var i, j :| IdentifierAt(s, i, j) && d <= i && w == s[i..j];
      ShiftIdentifier(s, d, i - d, j - d);
      assert IdentifierAt(s[d..], i - d, j - d) && s[d..][i - d..j - d] == w;
    }
  }

  /** A leading non-word character contributes no match. */
  lemma SkipMatches(ws: seq<string>, s: string)
    requires |s| > 0 && !IsWordChar(s[0])
    requires AreMatches(ws, s[1..])
    ensures AreMatches(ws, s)
  {
    ShiftMatches(ws, s, 1);
    forall w | exists i, j :: IdentifierAt(s, i, j) && w == s[i..j] ensures w in ws {
      var i, j :| IdentifierAt(s, i, j) && w == s[i..j];
      assert IsWordChar(s[i]);
    }
  }

  /** A leading run of word characters contributes itself, unless it starts with a digit. */
  lemma RunMatches(ws: seq<string>, s: string)
    requires |s| > 0 && IsWordChar(s[0])
    requires AreMatches(ws, s[WordRun(s)..])
    ensures AreMatches((if IsDigit(s[0]) then [] else [s[..WordRun(s)]]) + ws, s)
  {
    var k := WordRun(s);
    var front: seq<string> := if IsDigit(s[0]) then [] else [s[..k]];
    LeadingIdentifier(s);
    ShiftMatches(ws, s, k);
    forall w | w in front + ws ensures exists i, j :: IdentifierAt(s, i, j) && w == s[i..j] {
      if w in front {
        assert IdentifierAt(s, 0, k) && w == s[0..k];
      }
    }
    forall w | exists i, j :: IdentifierAt(s, i, j) && w == s[i..j] ensures w in front + ws {
      var i, j :| IdentifierAt(s, i, j) && w == s[i..j];
      if i < k {
        assert w == s[..k] && w in front;
      }
    }
  }

  /** The extracted words are exactly the matches of the identifier pattern. */
  lemma {:induction false} WordsAreMatches(s: string)
    ensures forall w :: w in Words(s) <==> exists i, j :: IdentifierAt(s, i, j) && w == s[i..j]
    decreases |s|
  {
    if |s| == 0 {
    } else if !IsWordChar(s[0]) {
      WordsAreMatches(s[1..]);
      SkipMatches(Words(s[1..]), s);
    } else {
      WordsAreMatches(s[WordRun(s)..]);
      RunMatches(Words(s[WordRun(s)..]), s);
    }
  }

  const ReservedWords: set<string> := {"AND", "OR", "NOT", "LIKE", "IN", "BETWEEN", "NULL"}

  /** A word kept as a column: not a reserved word, all letters and not all upper case. */
  predicate IsColumnWord(w: string)
  {
    Upper(w) !in ReservedWords && IsAlpha(w) && !IsUpperCase(w)
  }

  /** The column words among `ws`, collected left to right. */
  function ColumnWords(ws: seq<string>): set<string>
    decreases |ws|
  {
    if |ws| == 0 then {}
    else
      var w := ws[|ws| - 1];
      ColumnWords(ws[..|ws| - 1]) + if IsColumnWord(w) then {w} else {}
  }

  lemma {:induction false} ColumnWordsMembers(ws: seq<string>)
    ensures forall w :: w in ColumnWords(ws) <==> w in ws && IsColumnWord(w)
    decreases |ws|
  {
    if |ws| > 0 {
      ColumnWordsMembers(ws[..|ws| - 1]);
      assert ws == ws[..|ws| - 1] + [ws[|ws| - 1]];
    }
  }

  /** `_extract_table_columns(condition, node)` */
  function TableColumns(condition: string, n: Node): set<string>
  {
    if Text(n.properties, "table") == "" then {} else ColumnWords(Words(condition))
  }

  /** The column loop of `_extract_table_columns`. */
  method ExtractTableColumns(condition: string, node: Node) returns (columns: set<string>)
    ensures columns == TableColumns(condition, node)
  {
    var tableName := Text(node.properties, "table");
    if tableName == "" {
      return {};
    }
    columns := {};
    var words := Words(condition);
    var i := 0;
    while i < |words|
      invariant 0 <= i <= |words|
      invariant columns == ColumnWords(words[..i])
    {
      var word := words[i];
      assert words[..i + 1][..i] == words[..i];
      if Upper(word) in ReservedWords {
        i := i + 1;
        continue;
      }
      if IsAlpha(word) && !IsUpperCase(word) {
        columns := columns + {word};
      }
      i := i + 1;
    }
    assert words[..|words|] == words;
  }

  /**
   * The columns are exactly the words of the condition that are all letters,
   * contain a lower-case letter and are not reserved, when the node has a table;
   * none otherwise.
   */
  lemma TableColumnsMembers(condition: string, n: Node, w: string)
    ensures w in TableColumns(condition, n) <==>
      && Text(n.properties, "table") != ""
      && w in Words(condition)
      && IsAlpha(w)
      && (exists i :: 0 <= i < |w| && IsLower(w[i]))
      && Upper(w) !in ReservedWords
  {
    ColumnWordsMembers(Words(condition));
    if IsAlpha(w) {
      assert IsLetter(w[0]);
    }
  }

  /** Attribution never looks at the table name, only at whether there is one. */
  lemma TableColumnsIgnoreTableName(condition: string, a: Node, b: Node)
    requires Text(a.properties, "table") != "" && Text(b.properties, "table") != ""
    ensures TableColumns(condition, a) == TableColumns(condition, b)
  {
  }

  // ---------------------------------------------------------------------------
  // Rules

  function PushedFilter(child: Node, condition: string): Node
  {
    NewNode(Filter, [child], [Prop("condition", Str(condition))])
  }

  /** `_push_filter_through_join` */
  function PushFilterThroughJoin(filter: Node, join: Node, condition: string): (o: Outcome)
    requires |join.children| >= 2
  {
    var left, right := join.children[0], join.children[1];
    var leftColumns := TableColumns(condition, left);
    var rightColumns := TableColumns(condition, right);
    if leftColumns != {} && rightColumns == {} then
      Outcome(true, NewNode(Join, [PushedFilter(left, condition), right], join.properties))
    else if rightColumns != {} && leftColumns == {} then
      Outcome(true, NewNode(Join, [left, PushedFilter(right, condition)], join.properties))
    else
      Outcome(false, filter)
  }

  /**
   * `push_filters_down`. A Filter over a Project would go to
   * `_push_filter_through_project`, which the optimizer does not define: it never fires.
   */
  function PushFiltersDown(n: Node): (o: Outcome)
  {
    if n.kind != Filter then Outcome(false, n)
    else if |n.children| == 0 then Outcome(false, n)
    else
      var child := n.children[0];
      var condition := Text(n.properties, "condition");
      if child.kind == Join && |child.children| >= 2 then PushFilterThroughJoin(n, child, condition)
      else Outcome(false, n)
  }

  /** `reorder_joins` */
  function ReorderJoins(n: Node): (o: Outcome)
  {
    if n.kind == Join && |n.children| == 2 && n.children[0].estimatedRows > n.children[1].estimatedRows * 10.0 then
      Outcome(true, NewNode(Join, [n.children[1], n.children[0]], n.properties))
    else
      Outcome(false, n)
  }

  /**
   * Stands in for the four rules the optimizer lists but does not define
   * (`eliminate_redundant_filters`, `merge_filters`, `push_projects_down` and
   * `eliminate_redundant_projects`): it never builds a new node.
   */
  function NoRewrite(n: Node): Outcome
  {
    Outcome(false, n)
  }

  /** The optimizer's rule list, in list order. */
  const Rules: seq<Rule> := [PushFiltersDown, NoRewrite, NoRewrite, ReorderJoins, NoRewrite, NoRewrite]

  /** Every listed rule returns the node it was given whenever it does not fire. */
  lemma ListedRulesKeepInput(n: Node)
    ensures forall i :: 0 <= i < |Rules| && !Rules[i](n).fired ==> Rules[i](n).node == n
  {
  }

  /** The rule loop of `_apply_rules`: the outcome of the first rule that fires. */
  function FirstRule(rules: seq<Rule>, n: Node): (o: Outcome)
    ensures !o.fired ==> o.node == n
    decreases |rules|
  {
    if |rules| == 0 then Outcome(false, n)
    else
      var o := rules[0](n);
      if o.fired then o else FirstRule(rules[1..], n)
  }

  /** At most one rule fires per node: the first one in list order that fires. */
  lemma {:induction false} FirstRuleIsFirstFiring(rules: seq<Rule>, n: Node)
    ensures var o := FirstRule(rules, n);
      && (o.fired ==> exists i :: 0 <= i < |rules| && rules[i](n) == o
                                 && forall j :: 0 <= j < i ==> !rules[j](n).fired)
      && (!o.fired ==> o.node == n && forall j :: 0 <= j < |rules| ==> !rules[j](n).fired)
    decreases |rules|
  {
    if |rules| > 0 {
      var o := rules[0](n);
      if !o.fired {
        FirstRuleIsFirstFiring(rules[1..], n);
        var r := FirstRule(rules[1..], n);
        if r.fired {
          var i :| 0 <= i < |rules[1..]| && rules[1..][i](n) == r
                   && forall j :: 0 <= j < i ==> !rules[1..][j](n).fired;
          assert rules[i + 1](n) == r;
          forall j | 0 <= j < i + 1 ensures !rules[j](n).fired {
            if j > 0 { assert rules[j] == rules[1..][j - 1]; }
          }
        } else {
          forall j | 0 <= j < |rules| ensures !rules[j](n).fired {
            if j > 0 { assert rules[j] == rules[1..][j - 1]; }
          }
        }
      }
    }
  }

  /**
   * With the optimizer's list, a pass at one node tries filter push-down and then
   * join reordering, and nothing else can fire.
   */
  lemma ListedRulesOutcome(n: Node)
    ensures FirstRule(Rules, n) ==
      if PushFiltersDown(n).fired then PushFiltersDown(n)
      else if ReorderJoins(n).fired then ReorderJoins(n)
      else Outcome(false, n)
  {
    assert Rules[0..] == Rules;
    FirstRuleAt(Rules, 0, n);
    FirstRuleAt(Rules, 1, n);
    FirstRuleAt(Rules, 2, n);
    FirstRuleAt(Rules, 3, n);
    FirstRuleAt(Rules, 4, n);
    FirstRuleAt(Rules, 5, n);
    assert Rules[6..] == [];
  }

  /** The rule loop at position k: stop at a firing rule, or go on with the rest. */
  lemma FirstRuleAt(rules: seq<Rule>, k: nat, n: Node)
    requires k < |rules|
    ensures var o := rules[k](n);
      FirstRule(rules[k..], n) == if o.fired then o else FirstRule(rules[k + 1..], n)
  {
    assert rules[k..][0] == rules[k];
    assert rules[k..][1..] == rules[k + 1..];
  }

  // ---------------------------------------------------------------------------
  // One rewrite pass, for the optimizer's rule list `rules`

  /**
   * The node rebuilt over its rewritten children: same kind, a copy of the
   * properties, the same cost and rows, and default statistics.
   */
  function Rebuilt(rules: seq<Rule>, n: Node): Node
    decreases n, 0
  {
    var cs := seq(|n.children|, i requires 0 <= i < |n.children| => Rewrite(rules, n.children[i]));
    NewNode(n.kind, cs, n.properties).(estimatedCost := n.estimatedCost, estimatedRows := n.estimatedRows)
  }

  /** `_apply_rules(node)`: the pass's result. */
  function Rewrite(rules: seq<Rule>, n: Node): Node
    decreases n, 1
  {
    FirstRule(rules, Rebuilt(rules, n)).node
  }

  /** How many nodes of the tree a rule fired on during one pass. */
  function Firings(rules: seq<Rule>, n: Node): nat
    decreases n, |n.children| + 1
  {
    ChildFirings(rules, n, |n.children|) + (if FirstRule(rules, Rebuilt(rules, n)).fired then 1 else 0)
  }

  /** Firings within the first k children of n. */
  function ChildFirings(rules: seq<Rule>, n: Node, k: nat): nat
    requires k <= |n.children|
    decreases n, k
  {
    if k == 0 then 0 else ChildFirings(rules, n, k - 1) + Firings(rules, n.children[k - 1])
  }

  /** One more child: its rewrite is the next rebuilt child and its firings add to the count. */
  lemma ChildStep(rules: seq<Rule>, n: Node, i: nat)
    requires i < |n.children|
    ensures Rebuilt(rules, n).children[i] == Rewrite(rules, n.children[i])
    ensures ChildFirings(rules, n, i + 1) == ChildFirings(rules, n, i) + Firings(rules, n.children[i])
  {
  }

  /** A pass's firings are the children's plus one when a rule fires at the rebuilt node. */
  lemma FiringsSplit(rules: seq<Rule>, n: Node)
    ensures Firings(rules, n) ==
      ChildFirings(rules, n, |n.children|) + if FirstRule(rules, Rebuilt(rules, n)).fired then 1 else 0
  {
  }

  /**
   * A pass rewrites the children first; when no rule fires at a node, the node
   * keeps its kind, properties, cost and rows over the rewritten children.
   */
  lemma RewriteKeepsNode(rules: seq<Rule>, n: Node)
    requires !FirstRule(rules, Rebuilt(rules, n)).fired
    ensures var r := Rewrite(rules, n);
      && r.kind == n.kind && r.properties == n.properties
      && r.estimatedCost == n.estimatedCost && r.estimatedRows == n.estimatedRows
      && r.statistics == DefaultStatistics
      && |r.children| == |n.children|
      && forall i :: 0 <= i < |n.children| ==> r.children[i] == Rewrite(rules, n.children[i])
  {
  }

  // ---------------------------------------------------------------------------
  // Structural equality

  /** `_plans_equal`: same kind, same dictionary, same child count, children pairwise equal. */
  predicate PlansEqual(a: Node, b: Node)
    decreases a
  {
    && a.kind == b.kind
    && ToMap(a.properties) == ToMap(b.properties)
    && |a.children| == |b.children|
    && forall i :: 0 <= i < |a.children| ==> PlansEqual(a.children[i], b.children[i])
  }

  /** What structural equality looks at: kinds, dictionaries and the tree shape. */
  datatype Shape = Shape(kind: NodeType, properties: map<string, Value>, children: seq<Shape>)

  function ShapeOf(n: Node): Shape
    decreases n
  {
    Shape(n.kind, ToMap(n.properties), seq(|n.children|, i requires 0 <= i < |n.children| => ShapeOf(n.children[i])))
  }

  /** Two plans are structurally equal exactly when their shapes are equal. */
  lemma {:induction false} PlansEqualIsSameShape(a: Node, b: Node)
    ensures PlansEqual(a, b) <==> ShapeOf(a) == ShapeOf(b)
    decreases a
  {
    if |a.children| == |b.children| {
      forall i | 0 <= i < |a.children|
        ensures PlansEqual(a.children[i], b.children[i]) <==> ShapeOf(a.children[i]) == ShapeOf(b.children[i])
      {
        PlansEqualIsSameShape(a.children[i], b.children[i]);
      }
      if forall i :: 0 <= i < |a.children| ==> PlansEqual(a.children[i], b.children[i]) {
        assert ShapeOf(a).children == ShapeOf(b).children;
      }
      if ShapeOf(a) == ShapeOf(b) {
        forall i | 0 <= i < |a.children| ensures PlansEqual(a.children[i], b.children[i]) {
          assert ShapeOf(a).children[i] == ShapeOf(b).children[i];
        }
      }
    } else {
      assert |ShapeOf(a).children| != |ShapeOf(b).children|;
    }
  }

  lemma PlansEqualReflexive(a: Node)
    ensures PlansEqual(a, a)
  {
    PlansEqualIsSameShape(a, a);
  }

  lemma PlansEqualSymmetric(a: Node, b: Node)
    ensures PlansEqual(a, b) <==> PlansEqual(b, a)
  {
    PlansEqualIsSameShape(a, b);
    PlansEqualIsSameShape(b, a);
  }

  lemma PlansEqualTransitive(a: Node, b: Node, c: Node)
    requires PlansEqual(a, b) && PlansEqual(b, c)
    ensures PlansEqual(a, c)
  {
    PlansEqualIsSameShape(a, b);
    PlansEqualIsSameShape(b, c);
    PlansEqualIsSameShape(a, c);
  }

  /**
   * A node's own cost, rows and statistics play no part in structural equality,
   * nor in the shape that decides it.
   */
  lemma PlansEqualIgnoresEstimates(a: Node, b: Node, cost: real, rows: real, stats: Statistics)
    ensures PlansEqual(a, b) <==> PlansEqual(a.(estimatedCost := cost, estimatedRows := rows, statistics := stats), b)
    ensures ShapeOf(a.(estimatedCost := cost, estimatedRows := rows, statistics := stats)) == ShapeOf(a)
  {
  }

  // ---------------------------------------------------------------------------
  // The fixpoint loop

  datatype RunResult = RunResult(plan: Node, iterations: nat)

  /** The loop of `optimize`, from a given iteration count. */
  function Run(rules: seq<Rule>, p: Node, iteration: nat): RunResult
    requires iteration <= MaxIterations
    decreases MaxIterations - iteration, p
  {
    if iteration == MaxIterations then RunResult(p, iteration)
    else
      var q := Rewrite(rules, p);
      if PlansEqual(p, q) then RunResult(p, iteration + 1) else Run(rules, q, iteration + 1)
  }

  /** The rule applications the loop of `optimize` counts, from a given iteration count. */
  function RunApplied(rules: seq<Rule>, p: Node, iteration: nat): nat
    requires iteration <= MaxIterations
    decreases MaxIterations - iteration, p
  {
    if iteration == MaxIterations then 0
    else
      var q := Rewrite(rules, p);
      Firings(rules, p) + if PlansEqual(p, q) then 0 else RunApplied(rules, q, iteration + 1)
  }

  lemma RunAppliedStep(rules: seq<Rule>, p: Node, iteration: nat)
    requires iteration < MaxIterations
    ensures RunApplied(rules, p, iteration) == Firings(rules, p) +
      if PlansEqual(p, Rewrite(rules, p)) then 0 else RunApplied(rules, Rewrite(rules, p), iteration + 1)
  {
  }

  /**
   * One turn of the loop of `optimize`, from a state where `applied` rule applications
   * are counted and `p` is the current plan: either the pass changes nothing and the
   * run ends here, or the run goes on from the rewritten plan with the pass counted.
   */
  lemma RunTurn(rules: seq<Rule>, plan: Node, p: Node, iteration: nat, applied: int)
    requires iteration < MaxIterations
    requires applied + RunApplied(rules, p, iteration) == RunApplied(rules, plan, 0)
    requires Run(rules, p, iteration) == Run(rules, plan, 0)
    ensures var q := Rewrite(rules, p);
      if PlansEqual(p, q) then
        && applied + Firings(rules, p) == RunApplied(rules, plan, 0)
        && Run(rules, plan, 0) == RunResult(p, iteration + 1)
      else
        && applied + Firings(rules, p) + RunApplied(rules, q, iteration + 1) == RunApplied(rules, plan, 0)
        && Run(rules, q, iteration + 1) == Run(rules, plan, 0)
  {
    RunAppliedStep(rules, p, iteration);
    RunStep(rules, p, iteration);
  }

  /** After the tenth pass the loop of `optimize` stops, whatever the plan. */
  lemma RunAtLimit(rules: seq<Rule>, p: Node)
    ensures Run(rules, p, MaxIterations) == RunResult(p, MaxIterations)
    ensures RunApplied(rules, p, MaxIterations) == 0
  {
  }

  /** The plan after k passes. */
  function Passes(rules: seq<Rule>, p: Node, k: nat): Node
  {
    if k == 0 then p else Rewrite(rules, Passes(rules, p, k - 1))
  }

  /** Rule applications over the first k passes. */
  function FiringsUpTo(rules: seq<Rule>, p: Node, k: nat): nat
  {
    if k == 0 then 0 else FiringsUpTo(rules, p, k - 1) + Firings(rules, Passes(rules, p, k - 1))
  }

  /** Pass j + 1 changed the plan structurally. */
  predicate Changed(rules: seq<Rule>, plan: Node, j: nat)
  {
    !PlansEqual(Passes(rules, plan, j), Passes(rules, plan, j + 1))
  }

  /** One turn of the loop: stop on a structurally equal pass, otherwise go on from the new plan. */
  lemma RunStep(rules: seq<Rule>, p: Node, iteration: nat)
    requires iteration < MaxIterations
    ensures Run(rules, p, iteration) ==
      if PlansEqual(p, Rewrite(rules, p)) then RunResult(p, iteration + 1)
      else Run(rules, Rewrite(rules, p), iteration + 1)
  {
  }

  lemma PassesStep(rules: seq<Rule>, plan: Node, k: nat)
    ensures Passes(rules, plan, k + 1) == Rewrite(rules, Passes(rules, plan, k))
    ensures FiringsUpTo(rules, plan, k + 1) == FiringsUpTo(rules, plan, k) + Firings(rules, Passes(rules, plan, k))
  {
  }

  /** One turn of the loop of `optimize`, seen from the plan it started with. */
  lemma OptimizeStep(rules: seq<Rule>, plan: Node, k: nat)
    requires k < MaxIterations
    ensures var p := Passes(rules, plan, k);
      && Passes(rules, plan, k + 1) == Rewrite(rules, p)
      && FiringsUpTo(rules, plan, k + 1) == FiringsUpTo(rules, plan, k) + Firings(rules, p)
      && (PlansEqual(p, Rewrite(rules, p)) ==> Run(rules, p, k) == RunResult(p, k + 1))
      && (!PlansEqual(p, Rewrite(rules, p)) ==> Run(rules, p, k) == Run(rules, Rewrite(rules, p), k + 1))
  {
    RunStep(rules, Passes(rules, plan, k), k);
  }

  lemma {:induction false} RunFrom(rules: seq<Rule>, plan: Node, i: nat)
    requires i < MaxIterations
    ensures var res := Run(rules, Passes(rules, plan, i), i);
      && i < res.iterations <= MaxIterations
      && (forall j :: i <= j < res.iterations - 1 ==> Changed(rules, plan, j))
      && (!Changed(rules, plan, res.iterations - 1) ==> res.plan == Passes(rules, plan, res.iterations - 1))
      && (Changed(rules, plan, res.iterations - 1) ==>
            res.iterations == MaxIterations && res.plan == Passes(rules, plan, MaxIterations))
    decreases MaxIterations - i
  {
    var p := Passes(rules, plan, i);
    var q := Rewrite(rules, p);
    assert q == Passes(rules, plan, i + 1);
    if PlansEqual(p, q) {
      assert Run(rules, p, i) == RunResult(p, i + 1);
    } else if i + 1 == MaxIterations {
      assert Run(rules, p, i) == RunResult(q, MaxIterations);
    } else {
      assert Run(rules, p, i) == Run(rules, q, i + 1);
      RunFrom(rules, plan, i + 1);
    }
  }

  /** From pass i on, the firings the loop counts complete the firings of the first i passes. */
  lemma {:induction false} RunAppliedFrom(rules: seq<Rule>, plan: Node, i: nat)
    requires i <= MaxIterations
    ensures FiringsUpTo(rules, plan, i) + RunApplied(rules, Passes(rules, plan, i), i)
      == FiringsUpTo(rules, plan, Run(rules, Passes(rules, plan, i), i).iterations)
    decreases MaxIterations - i
  {
    if i < MaxIterations {
      var p := Passes(rules, plan, i);
      var q := Rewrite(rules, p);
      PassesStep(rules, plan, i);
      RunAppliedStep(rules, p, i);
      RunStep(rules, p, i);
      if !PlansEqual(p, q) {
        RunAppliedFrom(rules, plan, i + 1);
      }
    }
  }

  /** The count `optimize` stores is the total of the firings over the passes it ran. */
  lemma RunAppliedIsFiringsUpTo(rules: seq<Rule>, plan: Node)
    ensures RunApplied(rules, plan, 0) == FiringsUpTo(rules, plan, Run(rules, plan, 0).iterations)
  {
    RunAppliedFrom(rules, plan, 0);
  }

  /**
   * `optimize` runs between 1 and 10 passes. It stops after the first pass whose
   * output is structurally equal to its input and returns that input; if every
   * pass changed the plan, it returns the tenth pass's output.
   */
  lemma OptimizeOutcome(rules: seq<Rule>, plan: Node)
    ensures var res := Run(rules, plan, 0);
      && 1 <= res.iterations <= MaxIterations
      && (forall j :: 0 <= j < res.iterations - 1 ==> Changed(rules, plan, j))
      && (!Changed(rules, plan, res.iterations - 1) ==> res.plan == Passes(rules, plan, res.iterations - 1))
      && (Changed(rules, plan, res.iterations - 1) ==>
            res.iterations == MaxIterations && res.plan == Passes(rules, plan, MaxIterations))
  {
    RunFrom(rules, plan, 0);
  }

  /** When the loop stops before the tenth pass, one more pass leaves the result structurally unchanged. */
  lemma EarlyStopIsFixpoint(rules: seq<Rule>, plan: Node)
    requires Run(rules, plan, 0).iterations < MaxIterations
    ensures PlansEqual(Run(rules, plan, 0).plan, Rewrite(rules, Run(rules, plan, 0).plan))
  {
    OptimizeOutcome(rules, plan);
    var k := Run(rules, plan, 0).iterations;
    assert Passes(rules, plan, k) == Rewrite(rules, Passes(rules, plan, k - 1));
  }

  // ---------------------------------------------------------------------------
  // Properties of the rules

  /**
   * A filter moves through a join exactly when one side, and only one, yields
   * columns; it then wraps that side in a new Filter with the same condition and
   * keeps the join's properties and the other side. Otherwise the Filter is returned.
   */
  lemma PushFilterThroughJoinSpec(filter: Node, join: Node, condition: string)
    requires |join.children| >= 2
    ensures var o := PushFilterThroughJoin(filter, join, condition);
      var lc := TableColumns(condition, join.children[0]);
      var rc := TableColumns(condition, join.children[1]);
      && (o.fired <==> (lc != {}) != (rc != {}))
      && (!o.fired ==> o.node == filter)
      && (o.fired ==> o.node.kind == Join && o.node.properties == join.properties && |o.node.children| == 2)
      && (o.fired && lc != {} ==>
            o.node.children[0] == PushedFilter(join.children[0], condition) && o.node.children[1] == join.children[1])
      && (o.fired && rc != {} ==>
            o.node.children[0] == join.children[0] && o.node.children[1] == PushedFilter(join.children[1], condition))
  {
  }

  lemma SizeOfTwo(n: Node)
    requires |n.children| == 2
    ensures Size(n) == 1 + Size(n.children[0]) + Size(n.children[1])
  {
    var sizes := seq(|n.children|, i requires 0 <= i < |n.children| => Size(n.children[i]));
    assert sizes[..1][..0] == [];
    assert SumOf(sizes[..1]) == sizes[0];
    assert SumOf(sizes) == SumOf(sizes[..1]) + sizes[1];
  }

  lemma SizeOfPushed(child: Node, condition: string)
    ensures Size(PushedFilter(child, condition)) == 1 + Size(child)
  {
    var n := PushedFilter(child, condition);
    var sizes := seq(|n.children|, i requires 0 <= i < |n.children| => Size(n.children[i]));
    assert sizes[..0] == [];
    assert SumOf(sizes) == sizes[0];
  }

  /** Pushing a Filter through a two-child Join keeps the number of nodes. */
  lemma PushFilterKeepsSize(filter: Node, join: Node, condition: string)
    requires |join.children| == 2 && filter.children == [join]
    ensures Size(PushFilterThroughJoin(filter, join, condition).node) == Size(filter)
  {
    var o := PushFilterThroughJoin(filter, join, condition);
    var sizes := seq(|filter.children|, i requires 0 <= i < |filter.children| => Size(filter.children[i]));
    assert sizes == [Size(join)];
    assert sizes[..0] == [];
    SizeOfTwo(join);
    if o.fired {
      SizeOfTwo(o.node);
      SizeOfPushed(join.children[0], condition);
      SizeOfPushed(join.children[1], condition);
    }
  }

  /**
   * Attribution ignores the table name, so a Filter over a Join of two nodes that
   * both carry a table is never pushed.
   */
  lemma NoPushBetweenTwoTables(filter: Node, join: Node, condition: string)
    requires |join.children| >= 2
    requires Text(join.children[0].properties, "table") != "" && Text(join.children[1].properties, "table") != ""
    ensures !PushFilterThroughJoin(filter, join, condition).fired
  {
    TableColumnsIgnoreTableName(condition, join.children[0], join.children[1]);
  }

  /** Only a Filter directly over a Join can be rewritten by `push_filters_down`. */
  lemma PushFiltersDownOnlyOverJoin(n: Node)
    requires n.kind != Filter || |n.children| == 0 || n.children[0].kind != Join
    ensures PushFiltersDown(n) == Outcome(false, n)
  {
  }

  /**
   * `push_filters_down` either leaves the node alone or is the push of a
   * Filter through the binary Join directly below it.
   */
  lemma PushFiltersDownSpec(n: Node)
    ensures var o := PushFiltersDown(n);
      && (!o.fired ==> o.node == n)
      && (o.fired ==>
            && n.kind == Filter && |n.children| > 0 && n.children[0].kind == Join
            && |n.children[0].children| >= 2
            && o == PushFilterThroughJoin(n, n.children[0], Text(n.properties, "condition")))
  {
    if n.kind == Filter && |n.children| > 0 && n.children[0].kind == Join && |n.children[0].children| >= 2 {
      PushFilterThroughJoinSpec(n, n.children[0], Text(n.properties, "condition"));
    }
  }

  /** `reorder_joins` swaps exactly when the left input is more than ten times the right one. */
  lemma ReorderJoinsSpec(n: Node)
    requires n.kind == Join && |n.children| == 2
    ensures var o := ReorderJoins(n);
      && (o.fired <==> n.children[0].estimatedRows > 10.0 * n.children[1].estimatedRows)
      && (o.fired ==> o.node.children == [n.children[1], n.children[0]] && o.node.properties == n.properties)
  {
  }

  /** With non-negative rows, a swapped join never qualifies for a swap back. */
  lemma ReorderNoSwapBack(n: Node)
    requires ReorderJoins(n).fired
    requires n.children[0].estimatedRows >= 0.0 && n.children[1].estimatedRows >= 0.0
    ensures !ReorderJoins(ReorderJoins(n).node).fired
  {
  }

  // ---------------------------------------------------------------------------
  // The optimizer object

  /**
   * `optimization_stats`: a dictionary that only ever holds the keys 'rules_applied'
   * and 'iterations'; a key that is absent is `None`.
   */
  datatype Stats = Stats(rulesApplied: Option<int>, iterations: Option<int>)

  /** The empty dictionary `{}`. */
  const NoStats := Stats(None, None)

  class HeuristicOptimizer {
    /** `rules`: the rule list, tried in order at every node. */
    const rules: seq<Rule>
    /** `optimization_stats`: empty until the first `optimize`. */
    var optimizationStats: Stats

    constructor ()
      ensures rules == Rules && optimizationStats == NoStats
    {
      rules := Rules;
      optimizationStats := NoStats;
    }

    /** `_apply_rules`: rewrite the children, rebuild the node, try the rules in order. */
    method ApplyRules(node: Node) returns (result: Node)
      requires optimizationStats.rulesApplied.Some?
      modifies this
      ensures result == Rewrite(rules, node)
      ensures optimizationStats == old(optimizationStats)
        .(rulesApplied := Some(old(optimizationStats.rulesApplied.value) + Firings(rules, node)))
      decreases node, 1
    {
      var newChildren := ApplyRulesToChildren(node);
      var newNode := NewNode(node.kind, newChildren, node.properties)
        .(estimatedCost := node.estimatedCost, estimatedRows := node.estimatedRows);
      FiringsSplit(rules, node);
      result := ApplyFirstRule(newNode);
    }

    /** The child loop of `_apply_rules`: each child is rewritten in turn, left to right. */
    method ApplyRulesToChildren(node: Node) returns (newChildren: seq<Node>)
      requires optimizationStats.rulesApplied.Some?
      modifies this
      ensures newChildren == Rebuilt(rules, node).children
      ensures optimizationStats == old(optimizationStats)
        .(rulesApplied := Some(old(optimizationStats.rulesApplied.value) + ChildFirings(rules, node, |node.children|)))
      decreases node, 0
    {
      ghost var start := optimizationStats.rulesApplied.value;
      ghost var target := Rebuilt(rules, node).children;
      newChildren := [];
      var i := 0;
      while i < |node.children|
        invariant 0 <= i <= |node.children|
        invariant newChildren == target[..i]
        invariant optimizationStats == old(optimizationStats).(rulesApplied := Some(start + ChildFirings(rules, node, i)))
      {
        ChildStep(rules, node, i);
        var child := ApplyRules(node.children[i]);
        newChildren := newChildren + [child];
        i := i + 1;
      }
    }

    /** The rule loop of `_apply_rules`: the first rule that returns a new node wins and is counted. */
    method ApplyFirstRule(newNode: Node) returns (result: Node)
      requires optimizationStats.rulesApplied.Some?
      modifies this
      ensures result == FirstRule(rules, newNode).node
      ensures optimizationStats == old(optimizationStats)
        .(rulesApplied := Some(old(optimizationStats.rulesApplied.value) + if FirstRule(rules, newNode).fired then 1 else 0))
    {
      var k := 0;
      while k < |rules|
        invariant 0 <= k <= |rules|
        invariant FirstRule(rules[k..], newNode) == FirstRule(rules, newNode)
        invariant optimizationStats == old(optimizationStats)
      {
        var outcome := rules[k](newNode);
        FirstRuleAt(rules, k, newNode);
        if outcome.fired {
          optimizationStats := optimizationStats.(rulesApplied := Some(optimizationStats.rulesApplied.value + 1));
          return outcome.node;
        }
        k := k + 1;
      }
      return newNode;
    }

    /** `optimize`: rewrite passes until structurally unchanged, at most ten of them. */
    method Optimize(plan: Node) returns (optimizedPlan: Node)
      modifies this
      ensures optimizedPlan == Run(rules, plan, 0).plan
      ensures optimizationStats == Stats(Some(RunApplied(rules, plan, 0)), Some(Run(rules, plan, 0).iterations))
      ensures optimizationStats.rulesApplied == Some(FiringsUpTo(rules, plan, optimizationStats.iterations.value))
    {
      optimizationStats := Stats(Some(0), None);
      optimizedPlan := plan;
      var iteration := 0;
      ghost var applied := 0;
      while iteration < MaxIterations
        invariant 0 <= iteration <= MaxIterations
        invariant optimizationStats == Stats(Some(applied), None)
        invariant applied + RunApplied(rules, optimizedPlan, iteration) == RunApplied(rules, plan, 0)
        invariant Run(rules, optimizedPlan, iteration) == Run(rules, plan, 0)
      {
        RunTurn(rules, plan, optimizedPlan, iteration, applied);
        iteration := iteration + 1;
        var newPlan := ApplyRules(optimizedPlan);
        applied := applied + Firings(rules, optimizedPlan);
        if PlansEqual(optimizedPlan, newPlan) {
          break;
        }
        optimizedPlan := newPlan;
      }
      RunAtLimit(rules, optimizedPlan);
      assert applied == RunApplied(rules, plan, 0);
      assert Run(rules, plan, 0) == RunResult(optimizedPlan, iteration);
      optimizationStats := optimizationStats.(iterations := Some(iteration));
      RunAppliedIsFiringsUpTo(rules, plan);
    }
  }
}
