# A verified model of a rule-based and cost-based SQL query optimizer

The modelled system takes a logical query plan and improves it. A plan is a tree of `LogicalNode`s. Each node has:
- a kind: Scan, Filter, Project, Join, Aggregate, Sort or Limit;
- an ordered list of children;
- a property dictionary;
- an estimated cost and an estimated number of rows;
- per-table statistics.

Two optimizers work on plans:

- **The heuristic optimizer** runs rewrite passes. A pass is bottom-up: it rebuilds every node over its already rewritten children. It then tries the rule list in order and keeps the node built by the first rule that fires. The passes repeat until a pass leaves the plan structurally equal to its input, or until ten passes have run. Two rules are defined:
  - filter push-down through a join, which depends on which side of the join the filter's columns come from;
  - join reordering, which puts the much smaller input first.
- **The cost-based optimizer** runs in two steps:
  - It estimates rows and cost bottom-up from a statistics provider. This includes:
    - the selectivity of a filter condition, from its AND-separated clauses;
    - equi-join and cross-join cardinality;
    - the cheapest of three join algorithms at each join.
  - It then runs a local search. The search re-estimates each node over its optimized children and replaces it with a generated alternative (a join with its inputs swapped, or a different join algorithm) only when the alternative is strictly cheaper.

The project has five modules, one file each:
- `Wrappers`: the `Option` type.
- `Strings`: the ASCII character classes and the string helpers that stand for Python's `str` methods.
- `Plan`: the plan tree, its serialised view and its text view.
- `Heuristic`: the rewriter.
- `CostBased`: the estimator and the search.

Each optimizer is a class whose methods carry the source's loops. Each method is proved equal to a specification function, and the properties are proved as lemmas about those functions.

A few proved facts about the system as written, apart from the missing import of `re` noted under "## Left out":
- The local search can never pick an alternative. Every alternative is a Join over the same optimized children, and a Join's cost depends only on its children. So no alternative is strictly cheaper than the baseline, and `optimize` returns a plan with the bottom-up estimate unchanged (`CostBased.SearchIsBaseline`, `CostBased.OptimizeKeepsCost`).
- Column attribution ignores the table name. So a filter over a join whose two inputs both name a table is never pushed down (`Heuristic.NoPushBetweenTwoTables`).

With that import supplied, so that a non-empty condition is split on `AND` instead of raising `NameError`:
- Five chained equality clauses give a selectivity of exactly 0.01, not 0.1^5 (`CostBased.FiveEqualities`).

## Model

| member | source | states |
|---|---|---|
| Plan.KindOf | logical_plan.py:7-14 | Looking up an enum value string gives the kind with that value, and fails exactly when no kind has it. |
| Plan.Get | heuristic_optimizer.py:63 | A dictionary lookup finds a value exactly when some entry has the key, and the value found is that of the first entry with the key. |
| Plan.Put | cost_based_optimizer.py:44 | After assigning a key, the key maps to the new value and every other key keeps its old value. |
| Plan.PutKeepsUniqueKeys | cost_based_optimizer.py:44 | Assigning a key to a dictionary whose keys are distinct leaves its keys distinct, as a Python dict always is. |
| Plan.PutTwice | cost_based_optimizer.py:44 | Writing `join_method` twice is the same as writing the second value once, so re-estimating a Join does not grow its dictionary. |
| Plan.ToMapAgreesWithGet | heuristic_optimizer.py:138 | The dictionary seen as a map (as `!=` on dicts sees it) holds exactly the keys a lookup finds, with the same values. |
| Plan.FreshNode | logical_plan.py:26-32 | A new node has the given kind, no children, an empty dictionary, cost and rows 0, and default statistics: all counts 0, no min or max. |
| Plan.Indent | logical_plan.py:36 | The indent at depth d is exactly 2·d spaces. |
| Plan.ToDictKeys | logical_plan.py:49-55 | Every serialised node has exactly the keys node_type, properties, estimated_cost, estimated_rows and children, in that order, and never statistics or id. |
| Plan.ToDictRoundTrip | logical_plan.py:47-55 | Reading the serialised tree back gives the tree with its statistics reset. So kind, properties, cost, rows and the children (same count, same order) are copied at every node. |
| Plan.ToDictShape | logical_plan.py:54 | The serialised children list has one entry per child, in order, each the child's own serialisation. |
| Plan.ToString | logical_plan.py:35-45 | The child loop of `__str__` builds exactly the recursive text view: the node's line, then a line break and each child's text at the next depth. |
| Plan.RenderIsLines | logical_plan.py:35-45 | The text view is a sequence of header lines joined by line breaks. |
| Plan.LinesArePreorderHeaders | logical_plan.py:35-45 | There is one line per node. Line j is the header of the j-th node in preorder, printed at that node's depth. |
| Plan.HeaderIndent | logical_plan.py:36-39 | The line of a node at depth d starts with exactly 2·d spaces and then its kind name, which starts with a non-space character. |
| Plan.PropsSuffix | logical_plan.py:38-41 | The ` [k=v, ...]` suffix is printed if and only if the node's dictionary is non-empty. |
| Plan.LogicalPlan.constructor | logical_plan.py:57-60 | The wrapper holds the given root and a total cost of 0. |
| Heuristic.WordRun | heuristic_optimizer.py:123 | The run measured at the start of a string is the longest prefix of word characters: every character in it is one, and the next is not. |
| Heuristic.WordsAreIdentifiers | heuristic_optimizer.py:123 | Every word extracted from a condition is non-empty, starts with a letter or `_`, and contains only word characters. |
| Heuristic.WordsAreMatches | heuristic_optimizer.py:123 | In both directions, a word is extracted exactly when it is a match of the identifier pattern: a run of word characters with a non-word character or an end of the condition on each side, whose first character is a letter or `_`. |
| Heuristic.ColumnWordsMembers | heuristic_optimizer.py:125-130 | A word is collected exactly when it occurs in the list and is a column word. |
| Heuristic.ExtractTableColumns | heuristic_optimizer.py:115-132 | The column loop collects exactly the column set of the reference definition. |
| Heuristic.TableColumnsMembers | heuristic_optimizer.py:115-132 | A word is a column of a node, in both directions, exactly when the node has a table and the word occurs in the condition, is all letters, contains a lower-case letter, and is not a reserved word in upper case. |
| Heuristic.TableColumnsIgnoreTableName | heuristic_optimizer.py:117-119 | Any two nodes that carry a table get the same columns from a condition, whatever the table names. |
| Heuristic.ListedRulesKeepInput | heuristic_optimizer.py:7-14 | Every rule in the optimizer's list returns its input whenever it does not fire. |
| Heuristic.FirstRule | heuristic_optimizer.py:46-52 | When no rule fires, the rule loop returns the rebuilt node itself. |
| Heuristic.FirstRuleIsFirstFiring | heuristic_optimizer.py:46-52 | The rule loop returns the result of the first firing rule in list order, with no earlier rule firing. If no rule fires, it returns the node and none fired. |
| Heuristic.ListedRulesOutcome | heuristic_optimizer.py:7-14 | With the optimizer's list, a node is rewritten by filter push-down if that fires, else by join reordering if that fires, else left as it is. |
| Heuristic.HeuristicOptimizer.ApplyFirstRule | heuristic_optimizer.py:46-52 | The rule loop with early return gives the first firing rule's result and adds one to `rules_applied` exactly when a rule fired. |
| Heuristic.HeuristicOptimizer.ApplyRulesToChildren | heuristic_optimizer.py:40 | The children are rewritten left to right, and `rules_applied` grows by the firings inside them. |
| Heuristic.HeuristicOptimizer.ApplyRules | heuristic_optimizer.py:37-52 | One pass gives the reference rewrite, and `rules_applied` grows by exactly the number of nodes at which a rule fired. |
| Heuristic.RewriteKeepsNode | heuristic_optimizer.py:40-43 | When no rule fires at a node, the pass keeps its kind, properties, cost and rows over the rewritten children, with default statistics. |
| Heuristic.PlansEqualIsSameShape | heuristic_optimizer.py:134-143 | Two plans are structurally equal exactly when they have the same kinds, the same dictionaries (as maps) and the same tree shape. |
| Heuristic.PlansEqualReflexive | heuristic_optimizer.py:134-143 | Every plan is structurally equal to itself. |
| Heuristic.PlansEqualSymmetric | heuristic_optimizer.py:134-143 | Structural equality is symmetric. |
| Heuristic.PlansEqualTransitive | heuristic_optimizer.py:134-143 | Structural equality is transitive. |
| Heuristic.PlansEqualIgnoresEstimates | heuristic_optimizer.py:134-143 | A node's own cost, rows and statistics play no part in structural equality, nor in its shape. Since `Heuristic.PlansEqualIsSameShape` ties equality to the shape at every depth, the same holds for the estimates of any subtree. |
| Heuristic.RunStep | heuristic_optimizer.py:25-32 | One turn of the loop stops on a structurally equal pass, returning its input, and otherwise continues from the new plan. |
| Heuristic.RunAtLimit | heuristic_optimizer.py:25 | No pass runs once ten have run. |
| Heuristic.OptimizeStep | heuristic_optimizer.py:25-32 | The plan after k + 1 passes is one pass over the plan after k, and the firings add up. |
| Heuristic.RunAppliedIsFiringsUpTo | heuristic_optimizer.py:19-34 | The firings the loop counts are the total, over the passes it ran, of the rule firings of each pass. |
| Heuristic.OptimizeOutcome | heuristic_optimizer.py:22-34 | `optimize` runs between 1 and 10 passes, and every pass but the last changed the plan. It returns the input of the first structurally unchanged pass, or the tenth pass's output if every pass changed the plan. |
| Heuristic.EarlyStopIsFixpoint | heuristic_optimizer.py:29-30 | When the loop stops before the tenth pass, one more pass leaves the result structurally unchanged. |
| Heuristic.HeuristicOptimizer.constructor | heuristic_optimizer.py:6-15 | The optimizer starts with the six-entry rule list and an empty statistics dictionary. |
| Heuristic.HeuristicOptimizer.Optimize | heuristic_optimizer.py:17-35 | The loop returns the reference fixpoint run's plan. Afterwards the statistics hold the number of passes run and the total of the rule firings over exactly those passes. |
| Heuristic.PushFilterThroughJoinSpec | heuristic_optimizer.py:75-99 | The filter moves exactly when one side yields columns and the other does not. It then wraps that side in a Filter with the same condition, keeps the other side and the join's properties, and otherwise returns the Filter. |
| Heuristic.PushFilterKeepsSize | heuristic_optimizer.py:75-99 | Pushing a Filter through a two-input Join keeps the number of nodes. |
| Heuristic.NoPushBetweenTwoTables | heuristic_optimizer.py:79-82 | A Filter over a Join of two nodes that both carry a table is never pushed. |
| Heuristic.PushFiltersDownSpec | heuristic_optimizer.py:54-73 | `push_filters_down` either returns its input unfired, or it fired at a Filter whose first child is a Join with at least two children, and its result is the push of that Filter through that Join. |
| Heuristic.PushFiltersDownOnlyOverJoin | heuristic_optimizer.py:54-73 | Non-Filters, Filters without a child, and Filters over any non-Join child come back unchanged and unfired. |
| Heuristic.ReorderJoinsSpec | heuristic_optimizer.py:101-113 | A two-input Join is swapped if and only if left rows > 10 × right rows. The swap keeps the properties. |
| Heuristic.ReorderNoSwapBack | heuristic_optimizer.py:101-113 | With non-negative rows, a swapped join never qualifies for a swap back. |
| CostBased.Truncate | cost_based_optimizer.py:31 | `int()` truncates toward zero by less than one: for x ≥ 0 it gives t with 0 ≤ t ≤ x < t + 1, for x < 0 it gives t with t − 1 < x ≤ t ≤ 0. |
| CostBased.SplitAnd | cost_based_optimizer.py:61 | A split has one more piece than separators. |
| CostBased.FindSeparatorLeftmost | cost_based_optimizer.py:61 | The separator search finds the leftmost match, and reports none only when no position matches. |
| CostBased.SeparatorAtMatches | cost_based_optimizer.py:61 | A match consists of whitespace, `AND` in any letter case, then whitespace. |
| CostBased.SplitAndRebuilds | cost_based_optimizer.py:61 | Putting the separators back between the pieces gives the condition again. |
| CostBased.SplitAndSeparators | cost_based_optimizer.py:61 | Every removed separator is a full match of the separator pattern. |
| CostBased.ClausesOfWord | cost_based_optimizer.py:61 | A condition without whitespace is a single clause. |
| CostBased.ClausesCons | cost_based_optimizer.py:61 | A clause without whitespace, then ` AND `, then the rest splits into that clause followed by the rest's clauses. |
| CostBased.ClausesOfJoin | cost_based_optimizer.py:61 | Splitting undoes joining with ` AND `, for non-empty clauses without whitespace. |
| CostBased.Factor | cost_based_optimizer.py:65-72 | One clause's factor is in (0, 1]. |
| CostBased.Product | cost_based_optimizer.py:62-74 | The product of the clause factors is in (0, 1]. |
| CostBased.Selectivity | cost_based_optimizer.py:55-76 | The selectivity always lies in [0.01, 1.0], and it is exactly 1.0 for an empty condition. |
| CostBased.EqualityChainFloor | cost_based_optimizer.py:64-76 | Two or more equality clauses clamp the selectivity to exactly 0.01, in exact arithmetic (see the float line under Left out). |
| CostBased.FiveEqualities | cost_based_optimizer.py:55-76 | `a=1 AND b=2 AND c=3 AND d=4 AND e=5` has selectivity exactly 0.01. |
| CostBased.CostBasedOptimizer.EstimateSelectivity | cost_based_optimizer.py:55-76 | The accumulating loop over the clauses gives the reference selectivity, which lies in [0.01, 1.0]. |
| CostBased.MinDistinct | cost_based_optimizer.py:92 | `min(...) or 1` is never zero. |
| CostBased.EquiJoinBelowCross | cost_based_optimizer.py:78-94 | With non-negative rows and non-negative distinct counts (0 is the count of every child but a Scan, and then `or 1` divides by 1), the join estimate lies between 0 and the cross product. |
| CostBased.EquiJoinExample | cost_based_optimizer.py:78-94 | 1000 and 500 rows with 50 and 200 distinct values, joined on an equality, give 10000 rows. |
| CostBased.BestJoin | cost_based_optimizer.py:96-114 | The chosen join algorithm is one of the three, and its cost is at most each algorithm's cost. Ties go to the earlier name: hash_join wins only when strictly cheaper than nested_loop, and merge_join only when strictly cheaper than both. |
| CostBased.Estimate | cost_based_optimizer.py:16-53 | Estimation keeps each node's kind and leaves a tree that its preconditions still accept. |
| CostBased.EstimateScan | cost_based_optimizer.py:18-24 | A Scan naming a table takes the provider's statistics, their row count as rows and a tenth of it as cost. A Scan without a table is returned unchanged. |
| CostBased.EstimateFilter | cost_based_optimizer.py:26-33 | A Filter's estimate is the node itself over its estimated first child, built from the child's rows times the selectivity of the Filter's `condition`. |
| CostBased.FilterFields | cost_based_optimizer.py:31-33 | From the scaled child rows y, a Filter gets rows max(1, int(y)), cost the child's cost plus 0.01 per row, the child as its only child, and its own properties and statistics. |
| CostBased.FilterRows | cost_based_optimizer.py:31-32 | With a selectivity in [0.01, 1], a Filter's rows lie between 1 and max(1, child rows), and its cost is at least the child's cost plus 0.01. |
| CostBased.EstimateFilterBounds | cost_based_optimizer.py:26-33 | A Filter's rows are max(1, int(child rows × the selectivity of its condition)) and its cost is the child's cost plus 0.01 per row. So the rows lie between 1 and max(1, child rows), the cost is at least the child's cost plus 0.01, and the estimated first child is its only child. |
| CostBased.EstimateProject | cost_based_optimizer.py:47-51 | A Project passes its child's rows through and costs the child's cost plus 0.001 per row. |
| CostBased.EstimateJoin | cost_based_optimizer.py:35-45 | A Join overwrites `join_method` with the cheapest algorithm whatever it held, leaves the other properties alone, takes the join cardinality as rows, and costs exactly its inputs plus the chosen algorithm's cost, so at most its inputs plus each algorithm's cost. It keeps exactly its first two children, estimated. |
| CostBased.EstimateUntouched | cost_based_optimizer.py:16-53 | Aggregate, Sort and Limit nodes, with everything under them, are left as they are. |
| CostBased.EstimateIdempotent | cost_based_optimizer.py:16-53 | Estimating an estimated tree again changes nothing. |
| CostBased.EstimateOverSameChildren | cost_based_optimizer.py:16-53 | Estimation reads a child only through its cost, rows and statistics. |
| CostBased.CostBasedOptimizer.EstimateStatistics | cost_based_optimizer.py:16-53 | The estimation method gives the reference estimate. |
| CostBased.MethodAlternatives | cost_based_optimizer.py:155-161 | Every method alternative is a Join. |
| CostBased.Alternatives | cost_based_optimizer.py:143-163 | Every alternative is a Join. |
| CostBased.MethodAlternativesMembers | cost_based_optimizer.py:155-161 | There is a method alternative exactly for each listed method other than the current `join_method`: a Join without children whose dictionary is the node's with `join_method` set to that method. |
| CostBased.AlternativesInOrder | cost_based_optimizer.py:143-163 | A Join's alternatives, in order: the join with its two children swapped and the same dictionary, when it has exactly two children; then one childless Join per algorithm other than the current one, in the order nested_loop, hash_join, merge_join. |
| CostBased.AlternativesCount | cost_based_optimizer.py:143-163 | Non-Joins get no alternatives. A Join gets the swap when it has exactly two children, plus two method alternatives when its `join_method` is one of the three algorithms and three otherwise. |
| CostBased.CostBasedOptimizer.GenerateAlternatives | cost_based_optimizer.py:143-163 | The alternatives loop builds exactly the reference list: the swap first, then the method alternatives in list order. |
| CostBased.Pick | cost_based_optimizer.py:133-139 | The best plan so far is never replaced by a costlier one. |
| CostBased.PickStrict | cost_based_optimizer.py:133-139 | The result is the baseline, or an estimated alternative strictly cheaper than it. |
| CostBased.PickKeepsBest | cost_based_optimizer.py:133-139 | When no alternative is strictly cheaper, the baseline stays. |
| CostBased.Search | cost_based_optimizer.py:116-141 | A leaf comes back unchanged. A non-leaf comes back as a tree the estimation pass accepts. |
| CostBased.SearchedChildren | cost_based_optimizer.py:125 | There is one optimized child per child, and the children the estimation reads are accepted by it. |
| CostBased.CostBasedOptimizer.OptimizeChildren | cost_based_optimizer.py:125 | The child loop gives the reference optimized children, in order. |
| CostBased.JoinCostReadsChildren | cost_based_optimizer.py:35-45 | Two Joins over the same children get the same cost, whatever their properties. |
| CostBased.SearchIsBaseline | cost_based_optimizer.py:116-141 | The search of a non-leaf is exactly the node re-estimated over its optimized children, since no alternative is ever strictly cheaper. |
| CostBased.SearchKeepsEstimate | cost_based_optimizer.py:116-141 | Re-estimating a searched node gives the cost, rows and statistics of estimating the original. |
| CostBased.CostBasedOptimizer.FindOptimalPlan | cost_based_optimizer.py:116-141 | The loop over the alternatives, which keeps a strictly cheaper one, gives the reference search. |
| CostBased.OptimizeKeepsCost | cost_based_optimizer.py:11-14 | `optimize` returns a plan with exactly the bottom-up estimated cost, rows and statistics of its input, so never a costlier one. |
| CostBased.CostBasedOptimizer.constructor | cost_based_optimizer.py:6-9 | The optimizer keeps the given statistics provider. |
| CostBased.CostBasedOptimizer.Optimize | cost_based_optimizer.py:11-14 | `optimize` is estimation followed by the search. Its result has the estimate of the input plan. |

## Left out

- `LogicalPlan.visualize` and `_add_nodes` (logical_plan.py:62-84): graphviz rendering that writes an image file.
- `LogicalNode.id`: a memory address, used only by the rendering. The identity test `result != new_node` of `_apply_rules` is modelled as the `fired` flag each rule returns.
- In-place updates and aliasing: plan nodes are values, and every update returns the updated node.
  - The source mutates the `node` it is given.
  - It shares one `optimized_children` list among all the alternatives and re-estimates that list once per alternative.
  - The model agrees with the results because re-estimation changes nothing (`CostBased.EstimateIdempotent`). It does not capture that the caller's own tree object is changed.
- `math.log` (cost_based_optimizer.py:108-109) is an uninterpreted function `ln` passed in with the provider. No property of it is assumed.
- Float arithmetic: costs, rows and selectivity are exact `real`s, with no rounding. One visible difference: for exactly two equality clauses the program's float product `0.1*0.1` is 0.010000000000000002, just above the 0.01 clamp, where `CostBased.EqualityChainFloor` gives exactly 0.01; three or more clauses fall below the clamp in floats too. Integer and float rows are both `real`; a fresh node's rows are `0.0` where the source has the int `0`.
- Number formatting: `:.2f` and `str(v)` in `__str__` are left abstract as a `Format` parameter.
- `to_dict`'s result is a small JSON-like datatype. `FromDict` reads it back only to state the round trip; the source has no reader.
- Properties are a list of key/value entries. Nothing requires an input node's keys to be distinct, which a Python dict guarantees; lookups take the first entry, and the one assignment the core makes keeps distinct keys distinct (`Plan.PutKeepsUniqueKeys`).
- `Statistics` `min_val`/`max_val`, typed `Any`, are optional property values.
- Property values: the core reads only `table`, `condition` and `join_method`. A value that is not a string reads as absent, as `.get(k, "")` on a missing key would.
- Character classes: `\w`, `\s`, `str.upper`, `isalpha`, `isupper` and the case-insensitive `AND` are ASCII only; no Unicode letters or case folding.
- cost_based_optimizer.py uses `re.split` (line 61) without importing `re`. As written, every non-empty condition raises `NameError`, and so does every Filter estimate with a non-empty condition. The model follows the evidently intended case-insensitive split on whitespace-AND-whitespace.
- CostBased.ClausesOfJoin: the split-of-a-join round trip is proved only for clauses without whitespace, such as `a=1`. A clause like `amount > 100` is covered by the general split lemmas (`CostBased.SplitAndRebuilds`, `CostBased.SplitAndSeparators`) but not by this round trip.
- The unused `cost_cache` (cost_based_optimizer.py:9).
- `get_table_stats` for an unknown table: the provider is a map. A Scan's table must be in it, as part of `CostBased.Ready`.
- The Python exceptions of `_estimate_statistics` and `_find_optimal_plan` are preconditions (`CostBased.Ready`, `CostBased.Searchable`), not modelled error paths. They arise for a Filter or Project without a child and for a Join with fewer than two children.
- The rules `eliminate_redundant_filters`, `merge_filters`, `push_projects_down` and `eliminate_redundant_projects`, and the method `_push_filter_through_project`, are not defined (heuristic_optimizer.py:9-13, 68).
  - As written, building the optimizer raises `AttributeError`.
  - The model treats the four rules as a rule that never fires, and a Filter over a Project as not rewritten.
- Heuristic.PushFiltersDown: a Filter over a Join with fewer than two children raises `IndexError` in the source. The model leaves such a Filter unchanged.
- Heuristic.HeuristicOptimizer.ApplyRules: it requires the `rules_applied` entry to exist. The source fails with `KeyError` only when a rule fires without it; `optimize` always creates the entry first.
- `optimization_stats` is a record of its two possible keys, `rules_applied` and `iterations`, each optional.
- sql_parser.py and __init__.py are not part of this model. The plan tree is an input.
