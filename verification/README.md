# Starter core: rules engine, I/O records, discovery

A model in Dafny of the parts of the Starter home-automation core that decide what
happens: the rules engine, the I/O records that peers keep and replicate, the
discovery of peers, and a few self-contained algorithms beside them.

**Rules.** A rule is a label block (the first entry whose condition is true
assigns) or a trigger (every assignment is tried). Variables hold *unevaluated*
expressions, so a look-up evaluates through the live variable table, and a write
of a variable re-enters the engine before the assignment returns. Whether any of
this ends is a real question, so the functions `Exprs.Eval`, `Exprs.HaveRef` and
`Rules.Pass` take the nesting depth that is available and return `None` when more
is needed. What is `None` at every depth is a computation that never returns in
the program. `Engine.Engine` is the object that changes its variable table and log
in place; each of its methods is proved against the function of `Rules`, and the
theorems are about those functions: what expressions mean (`Semantics`) and what
assignments come to (`Assignments`), when cascades end (`Stratification`), that a
pass does the same whatever the peers answer (`Deeds`), that the dependency filter
misses nothing and, with all nested passes, does what full passes would do (`Exprs`,
`Reactivity`, `Cascades`, `Filtering`), what requests can be sent (`RequestSafety`),
all of that over whole runs (`Runs`), what endless cascades have done so far
(`Trails`), and where each guarantee stops (`Limits`, with concrete rules). A pass does
the same at every depth at which it returns (`Rules.PassMonotone`).

**Expression nodes.** `Nodes` has the reference-counted graph under those
expressions: counts, releases, variables that swap their expression, and the two
functions that rewrite their own nodes, EVAL and CHANGED. `Printing` relates the
text of expressions and rules to the grammar.

**Records.** `Snap` is the arithmetic of rounding to a step, `Records` the guarded
setters, `Replication` the broadcast of a whole record and its replay, field by
field, through the client's own setters, with the exact condition under which the
replica goes astray.

**Peers.** `Services`, `Registry` and `Discovery` are the list of adverts, the books
on pending and registered peers with the tables of their points, and both together;
`Start` is the start of a client, synchronous or as a chain of callbacks. `Text` has
the in-place string replacement and the scan of the debug-domain list, `Debugger` the
break- and watchpoints with the pause that a hit begins.

Numbers are exact reals. Where the manual and the code differ, the model follows
the code: MAX starts from the smallest positive double, so the manual's "highest
value" holds only from there on (`Exprs.MaxIsHighestIff`); the manual's unary minus
is not in the grammar, which has a prefix star instead (`Printing.NoPrefixMinus`; a
signed number is a token of its own); EVAL freezes at its first successful evaluation,
not at the assignment, and that evaluation itself yields no result
(`Nodes.Store.EvalFunction`); CHANGED is also true at its first evaluation
(`Nodes.ChangedIsTrueIff`). The comment at lib/client.c:922 says that subscribing after the snapshot avoids dropping early
signals; nothing of that kind is claimed, as a change between the two is missed.

## Model

| member | source | states |
|---|---|---|
| Exprs.ExprEval | src/expr.c:639-673 | the recursive evaluator computes Eval: inputs before outputs before variables, both operands of every operator, left failure first, arguments left to right until one fails |
| Exprs.EvalExtremum | src/expr.c:423-471 | the accumulating loops of MIN and MAX compute the same as evaluating all arguments and taking the extremum, errors included |
| Exprs.MaxIsHighestIff | src/expr.c:448-471 | MAX is the highest argument exactly when some argument reaches the smallest positive double; otherwise it is that double |
| Exprs.MinIsLowestIff | src/expr.c:423-446 | MIN is the lowest argument exactly when some argument is at most the largest double |
| Semantics.Comparisons | src/expr.c:133-144 | comparing an operand with one that differs from it by d yields 1 or 0 by the sign of d, for each of the six operators |
| Semantics.Sums | src/expr.c:149-152 | addition has the unit 0 and moves with its left operand, and subtraction undoes it |
| Semantics.Products | src/expr.c:153-156 | multiplication has a unit, distributes, commutes and keeps signs; division undoes it unless it is by 0 |
| Semantics.Connectives | src/expr.c:145-148 | a number counts as true if it is not 0: conjunction is the product of the truths, disjunction the truth of their sum |
| Semantics.UnknownFails | src/expr.c:157-166 | an unknown operator fails as an invalid value |
| Semantics.OperandsAreNeeded | src/expr.c:121-131 | every operator evaluates both operands, also where one of them decides already, and fails as the left one does if both fail |
| Semantics.LimitClamps | src/expr.c:486-509 | LIMIT keeps its argument in range, yields the bound it violates otherwise, and stays within bounds that are in order |
| Semantics.RoundsToNearest | src/expr.c:473-484 | ROUND yields the nearest integer, of two the one further from zero |
| Semantics.FirstFailureWins | src/expr.c:423-509 | the first argument that fails decides what a call fails with |
| Semantics.FlagTests | src/expr.c:316-341 | FLAG is 1 with its bit set and 0 with it cleared, whatever the other flags are, in an input before an output of the same name and never in a variable |
| Semantics.InputsHideOutputs | src/expr.c:221-263 | an input hides an output and a variable of its name, an output a variable, and any other name is undefined |
| Semantics.VariablesMeanWhatTheyHold | src/expr.c:247-255 | an evaluation that returns is that of the expression with every variable replaced by what it holds, and that in turn, for which no variable is needed |
| Exprs.ExprHaveRef | src/expr.c:735-744 | the short-circuiting search computes HaveRef, through variables and over argument lists |
| Exprs.EvalMonotone | src/expr.c:247-255 | more available nesting never changes an answer, so the answer of an evaluation that returns is unique |
| Exprs.SearchDecidesReachability | src/expr.c:279-295 | when the search returns, it is true exactly if a chain of variables leads from the expression to one that contains the name |
| Exprs.EvalIgnores | src/expr.c:735-744 | if the search says no, the expression evaluates the same, value or error, for every new value, flags or rebinding of the name, and even if it appears or disappears |
| Exprs.HaveRefIgnores | src/expr.c:735-744 | if the search for a name says no, the search for any other name is the same after any rebinding of the first |
| Exprs.HaveRefRebound | src/expr.c:279-295 | whether an expression depends on a variable does not depend on what that variable holds |
| Exprs.AcyclicTablesEnd | src/expr.c:247-255 | over an acyclic variable table one nesting depth suffices for every evaluation and every search of every expression |
| Exprs.AcyclicIffSearchReturns | src/expr.c:279-295 | the table is acyclic exactly when the search for an unused name comes back from every variable |
| Exprs.EvalAgrees | src/expr.c:247-255 | an evaluation only depends on variables ranked below the level of its names |
| Exprs.RebindKeepsAcyclicIff | src/var.c:100-111 | binding x to e keeps an acyclic table acyclic exactly when no chain of variables leads from e to one that looks x up |
| Exprs.SearchForetells | src/expr.c:279-295 | the search foretells it: after a "no" the binding is harmless, and a "yes" is a false alarm exactly when every chain to x ends in an expression that only tests a flag of x |
| Exprs.RunStaysAcyclicIff | src/engine.c:268-300 | over a run of variable writes the table is acyclic all along exactly when no write binds a variable to an expression that depends on it at that moment |
| Deeds.RequestDeeds | src/engine.c:78-266 | an assignment that writes no variable makes one request or none, decided by points, table and guards alone |
| Deeds.PassDeeds | src/engine.c:803-899 | what a pass writes and requests, with all passes it nests and in order, depends neither on what the peers answer nor on what was logged before; the table afterwards is the one before with those writes made in order |
| Rules.PassMonotone | src/engine.c:803-899 | a pass that returns does exactly the same with any more nesting available: its outcome is one thing, whatever depth it is looked at |
| Trails.PassStaysAcyclicIff | src/engine.c:268-300 | a pass keeps an acyclic table acyclic at every moment, whether it ever returns or not, exactly when none of the writes it makes on its way, nested ones included, is of an expression that depends on its target |
| Trails.PassLeads | src/main.c:208-214 | what a pass has done by one depth is how it begins at every greater depth, so even an endless cascade is one definite sequence of deeds |
| Engine.Engine.SendRequest | src/engine.c:242-251 | a request is logged with the peer's answer and fails exactly when the peer refuses |
| Engine.Engine.ApplyBit | src/engine.c:102-139 | a flag request repeats the cached value and is not sent when it would change nothing |
| Engine.Engine.ApplyFlag | src/engine.c:78-182 | the whole flag assignment: refused bits succeed without effect, outputs before inputs, anything else is undefined |
| Engine.Engine.ApplyAssign | src/engine.c:184-308 | the new table, log and error of an assignment, outputs before variables, the nested pass of a variable write included |
| Engine.Engine.SetVariable | src/var.c:100-111 | an equal expression is suppressed; any other write stores it and has completed the pass for that name before it returns |
| Engine.Engine.ApplyLabelBlock | src/engine.c:454-527 | the loop applies the first entry whose condition is true, and stops at a failing condition |
| Engine.Engine.ApplyTrigger | src/engine.c:614-704 | the loop tries every assignment and reports the first error |
| Engine.Engine.SearchRule | src/engine.c:529-541 | the nested searches over conditions and right-hand sides decide whether a rule is woken, in the order of the code |
| Engine.Engine.ApplyLabelBlocks | src/engine.c:814-854 | the loop over label blocks is the first part of a pass, each filter decision taken in the table as it is then |
| Engine.Engine.ApplyTriggers | src/engine.c:856-896 | and the loop over triggers the rest of it; failing rules are left behind |
| Engine.Engine.Apply | src/engine.c:803-899 | a pass over all rules, with every pass that its variable writes nest, does what Pass says |
| Engine.Engine.React | src/main.c:208-214 | for stratified rules the change callback completes within 2 * bound + 1 nested calls, sends only permitted requests, and keeps the rules stratified; with one writer per variable it leaves no variable to write, and, if no left-out rule sets the changed point, no request to make but those it made and those that were made before about points unchanged since |
| RequestSafety.PassAdvances | src/engine.c:803-899 | every event a pass logs, at any nesting, is permitted: a request changes only the value of an output without manual override, or exactly one user bit; the log only grows; no variable is declared or dropped |
| RequestSafety.UserBits | src/expr.c:27-32 | the bit test accepts exactly USR1 to USR4 |
| RequestSafety.ReservedBitsKept | src/engine.c:108-111 | no permitted request alters MANUAL_OVERRIDE, NO_HISTORY or any other bit outside USR1 to USR4 |
| RequestSafety.FlagAdvances | src/engine.c:78-182 | a flag assignment changes nothing, or logs one request and nothing else, which sets or clears its own user bit of the cached point |
| Assignments.FlagIsWritten | src/engine.c:102-166 | after a flag assignment the bit that was asked for is set exactly if the value is not 0, all other flags and the value are as cached, in an output before an input |
| Assignments.AssignOutcome | src/engine.c:78-308 | what any assignment that writes no variable logs, when it counts as applied, and the error it reports: refused, unknown, or the failure of its expression |
| Assignments.BlockIsFirstMatch | src/engine.c:454-527 | the first entry whose condition is not 0 decides, by its error or by its assignment, which is logged as a rule if applied; without one nothing happens |
| Assignments.TriggerTriesAll | src/engine.c:614-704 | a trigger tries every assignment in the state that those before it left, failed or not, logs each that was applied, and reports the first error |
| Assignments.TriggerNeedsItsCondition | src/engine.c:614-640 | a trigger whose condition is 0 or fails does nothing, and reports the failure |
| Assignments.PassRunsAll | src/engine.c:803-899 | a pass goes through all rules in order, each filtered in the table as it is then, and no error stops it |
| RequestSafety.AssignAdvances | src/engine.c:184-308 | an assignment, with the cascade it starts, only logs permitted events |
| Stratification.PathTop | src/expr.c:279-295 | an expression that reaches a variable names a variable of at least its rank |
| Stratification.WokenMayRun | src/engine.c:803-899 | a rule that is woken by a name only assigns variables that rank higher |
| Stratification.PassEnds | src/main.c:170-215 | a pass of stratified rules returns at depth bound + Need(level), keeps the rules stratified, and writes only variables assigned by rules that name its level or above |
| Stratification.StratifiedRunsEnd | src/main.c:312-400 | in every run of value changes and peer events, whatever the peers answer, no pass of stratified rules diverges: every depth from 2 * bound + 1 on suffices |
| Stratification.RunMonotone | src/main.c:312-400 | a run that returns is the same at every greater depth |
| Reactivity.SettledIgnores | src/engine.c:818-820 | a rule that the filter leaves out is settled after the change exactly if it was before, up to what it sets of the changed name itself; settled means that it would write no variable and make no request outside a given set |
| Reactivity.SettledStands | src/engine.c:818-820 | with requests that stop counting when their point changes, such a rule stays settled exactly if it would not set the changed point itself |
| Reactivity.CascadeSpares | src/var.c:108 | a cascade started by a write leaves alone all lower ranks and all other targets of the rule that wrote |
| Reactivity.RuleSettles | src/engine.c:614-704 | a rule that ran, with all its cascades, would now write no variable and make no request that is not made already |
| Cascades.WriteCovers | src/var.c:108 | a write may unsettle only rules that the nested pass will wake, or that are due in a pass under way |
| Cascades.PassCovers | src/engine.c:803-899 | the invariant of nested passes: every rule is settled, being applied, or due in a pass under way |
| Cascades.LeftOutSettledIff | src/engine.c:818-820 | from settled rules: those that the filter leaves out are settled after the change exactly if none of them would set the changed point |
| Cascades.PassSettles | src/engine.c:803-899 | a full pass settles every rule from any table; a filtered pass does so from left-out rules that are settled: no variable is left to write, and no request to make that was not made |
| Cascades.PassResettles | src/engine.c:803-899 | from rules that were settled before one point changed, none of which is left out and sets it: all are settled again, with requests about that point counted afresh |
| Cascades.PassResettlesVariables | src/engine.c:803-899 | as to variables, without any condition on what the rules set |
| Cascades.SettledRuleAsks | src/engine.c:242-251 | a rule that would write no variable makes exactly the requests of the assignments it fires, in order |
| Filtering.SettledIffFullPassOnlyAsks | src/engine.c:803-899 | all rules are settled exactly when a full pass would write no variable and make only the requests allowed; with none allowed, exactly when it would do nothing |
| Filtering.FilterMissesNothing | src/engine.c:818-820 | after a filtered pass a full pass writes nothing and makes no request but those of the filtered pass and earlier ones about points unchanged since; for every sufficient depth, as all results of this module |
| Filtering.FilteredWritesAsFull | src/engine.c:803-899 | from rules that would write no variable, after one point changes: the filtered pass and the full pass, with all nested passes, write the same variables in the same order and end with the same table |
| Filtering.FilteredDoesAsFull | src/engine.c:803-899 | the same with requests: the full pass does what the filtered one does, in order, and besides only makes requests again that the filtered pass makes too or that were made before about points unchanged since |
| Filtering.FilteredAsksAsFull | src/engine.c:343-347 | from rules that would do nothing, and with no left-out rule that sets the changed point, both passes make the same set of requests |
| Filtering.RuleRestsIff | src/engine.c:529-541 | applying a rule leaves table and log as they are exactly when all assignments it fires are settled; and it changes something only if it logs something |
| Filtering.FilteredIsFullIff | src/engine.c:803-899 | when a full pass would do nothing before the change and no rule would write a variable after it, the filtered pass is the full pass, order, answers and log included, exactly if no left-out rule would set the changed point itself |
| Runs.RunAdvances | src/main.c:312-400 | every event of a whole run is permitted for the points as they were when its pass ran |
| Runs.AskedIff | src/engine.c:242-251 | a request stands exactly if some pass of the run made it and since then neither its point changed nor a full pass began |
| Runs.RunSettles | src/main.c:312-400 | after a full pass at the start, with one point changing at a time and no left-out rule that sets it, after every pass of the run all rules are settled: none would write a variable or make a request that does not stand |
| Runs.RunSettlesVariables | src/main.c:312-400 | as to variables, without any condition on what the rules set |
| Runs.FilteredRunWritesAsFull | src/engine.c:818-820 | over such a run the filter is invisible to variables: all writes are those of the run in which every pass is a full one, in the same order, and the tables agree after every pass |
| Limits.OwnTargetIsNotReasserted | src/engine.c:405-411 | the failing side of `Filtering.FilteredIsFullIff`: a lamp that a peer turns off is not turned on again by the filtered pass |
| Limits.FullPassRepeatsRequest | src/engine.c:803-899 | with a variable write a full pass may send the same request twice where the filtered pass sends it once |
| Limits.RivalsNeverSettle | src/engine.c:803-899 | with two writers of one variable every full pass writes it twice and ends in the state it began with |
| Limits.FlipFlopNeverEnds | src/main.c:208-214 | a rule that toggles its own variable diverges at every depth |
| Limits.FlipFlopStaysAcyclic | src/main.c:208-214 | yet no evaluation in it does: at every depth it has made that many writes, each of which leaves the table acyclic |
| Limits.PassForXNeverEnds | src/main.c:208-214 | ranking assignment by assignment is not enough: three rules that are ranked so diverge at every depth |
| Limits.LoopIsRankedByAssignment | src/engine.c:706-723 | those three rules do have such a ranking |
| Nodes.Store.Acquire | src/expr.c:52-58 | a reference more: one count rises, every expression stays |
| Nodes.Store.Release | src/expr.c:60-78 | exactly the nodes that no root reaches any more are released, through shared children; all others keep label, children and sound counts |
| Nodes.Store.ReleaseAll | src/expr.c:396-401 | releasing an argument list gives back each reference once |
| Nodes.Store.NewLeaf | src/expr.c:103-119 | a fresh node with one holder, and nothing else changed |
| Nodes.Store.NewOp | src/expr.c:199-219 | a node over the two operands that shares them with the caller; all older expressions are unchanged |
| Nodes.Store.NewCall | src/expr.c:578-599 | the argument references pass from the caller to the node |
| Nodes.Store.NewChanged | src/expr.c:631-637 | CHANGED starts with a private literal that says it has seen no operand |
| Nodes.Store.ExprEqual | src/expr.c:688-733 | the comparison, pointer shortcut included, is equality of the expressions below the two nodes |
| Nodes.Store.EvalFunction | src/expr.c:511-535 | a literal argument is the result; otherwise the value replaces the argument for good, the call yields no result, and the node itself survives the release of its argument |
| Nodes.Store.ChangedFunction | src/expr.c:537-562 | the result compares with the operand kept since the evaluation before, which the present one replaces; no other node changes, no other CHANGED loses its operand and no EVAL its value |
| Nodes.Var.constructor | src/var.c:75-86 | a variable is one more holder of its expression |
| Nodes.Var.SetValue | src/var.c:100-111 | with a value the caller holds too: changed exactly when the expressions differ, the variable then stands for the new one, and exactly what nobody holds any more is released, never the new value |
| Nodes.LiveIffRooted | src/expr.c:60-78 | with sound counts a node is live exactly when a root reaches it: nothing in use is released and nothing else is kept |
| Nodes.ReleasedExactly | src/expr.c:60-78 | any release that keeps the counts sound removes exactly the unreachable nodes |
| Nodes.FreeKeepsSound | src/expr.c:60-78 | freeing a node with one holder and handing its references to the releaser keeps all counts equal to the number of holders |
| Nodes.SwapKeepsSound | src/expr.c:529-533 | so does replacing the argument of EVAL |
| Nodes.FrozenForGood | src/expr.c:511-535 | once frozen, an EVAL keeps its value through every later step of the arena, evaluations of CHANGED included, as long as it lives |
| Nodes.FrozenIff | src/expr.c:519-520 | an EVAL is frozen at a value exactly if it stands over that literal and nothing else |
| Nodes.FrozenIsConstant | src/expr.c:519-520 | a frozen EVAL means its value, and a variable that holds it evaluates to that value in every environment and refers to no name, whatever the other variables hold |
| Nodes.OperandIsRemembered | src/expr.c:537-562 | in every history of the arena, with evaluations of other CHANGED and EVAL nodes, releases and new nodes in between, a living CHANGED holds the operand of its own last evaluation |
| Nodes.ChangedIsTrueIff | src/expr.c:554-559 | in every such history the k-th result of a CHANGED is true exactly at first, when its operand differs from the one it saw before, or when that one equalled the initial mark |
| Nodes.MeaningIsFaithful | src/expr.c:688-733 | for expressions without CHANGED and EVAL, equal nodes and equal meaning are the same |
| Nodes.SuppressedWriteIsUnobservable | src/var.c:103-104 | a write is suppressed exactly when it would leave the meaning of the variable table unchanged, and so every evaluation and search through it |
| Snap.SnapIsNearest | lib/input.c:62-69 | the result is within half a step, no other multiple is nearer, and a tie goes away from zero |
| Snap.SnapIsUnique | lib/input.c:62-69 | these facts determine it |
| Snap.SnapIsIdempotent | lib/input.c:62-69 | snapping twice is snapping once, also for a step too small to use |
| Snap.SnapIsMonotone | lib/input.c:62-69 | snapping keeps the order of values |
| Snap.SnapIgnoresSign | lib/input.c:62-69 | the sign of the step does not matter |
| Snap.SnapThereAndBack | lib/client.c:102-124 | to the new step, back to the old one and to the new one again is the same as to the new one, for values on the old grid and any two usable steps |
| Records.Record.constructor | lib/input.c:231-262 | a new record is on its grid and in order |
| Records.Record.ApplyMin | lib/input.c:400-429 | new fields, answer and signals, with the fields that the handlers see; rejected without effect above the value |
| Records.Record.ApplyMax | lib/input.c:439-468 | the same for the maximum |
| Records.Record.ApplyVal | lib/input.c:548-577 | the same for the value, between minimum and maximum |
| Records.Record.ApplyStep | lib/input.c:478-538 | fields move one by one, each signalled while the old step is still stored; one final change signal if anything moved |
| Records.Record.ApplyFlags | lib/output.c:588-606 | flags are always accepted and signalled when they differ |
| Records.SignalsAreFaithful | lib/input.c:400-577 | minimum, maximum, value and flags are each signalled exactly when that field moved by more than the tolerance, with its own signal, once and in this order, a step change when the step or some field moved, and the common signal last and exactly when anything was; each handler sees its field in its final state, and the old step while fields move |
| Records.AcceptedIff | lib/input.c:400-577 | from a record in order: a setter is accepted exactly if the record it asks for is in order, a step if it can be used, and the record then is that one |
| Records.RegridMoves | lib/input.c:503-522 | a step change leaves a field that is near enough to the new grid and takes any other to a grid point within half a step |
| Records.NearlyEqualIff | lib/input.c:71-94 | the tolerance: eight times the gap after 1, scaled by the values, or a billionth of a usable step |
| Records.EpsilonIsTheGap | lib/input.c:71-79 | the gap after 1 is 2^-52 |
| Records.PerformKeepsSound | lib/input.c:400-577 | every setter keeps each field on its grid up to the tolerance and the grid points in order; a rejected one changes and signals nothing |
| Records.RunKeepsSound | lib/output.c:401-578 | so does every sequence of setters |
| Records.StepAcceptedWhenOrdered | lib/input.c:478-496 | a usable step is never rejected while minimum, value and maximum are in order |
| Records.OrderKept | lib/input.c:478-538 | strict order survives every setter but a step change that keeps an off-grid field |
| Records.OrderLostIff | lib/input.c:503-522 | a step change loses the order exactly when one of two neighbours is kept within the tolerance and the other moves past it |
| Records.OrderLost | lib/input.c:503-522 | a record and a step for which this happens |
| Records.AcceptedValRestoresOrder | lib/input.c:548-563 | any accepted value restores the order |
| Replication.ReplayChanged | lib/client.c:102-140 | the client's handler replays the fields through its own setters, errors ignored, minimum and maximum with the old step |
| Replication.Server.Broadcast | lib/server.c:206-224 | the loop appends the message to every connection's queue |
| Replication.Server.Set | lib/server.c:357-418 | SetOutput and SetInput: flags only after an accepted value, the answer, and the messages on every connection |
| Replication.OneBroadcast | lib/input.c:418-422 | each setter puts at most one message on the wire, with the record as it is in the end |
| Replication.StepReplayed | lib/client.c:102-132 | replaying a step change that moved several fields gives the server's record, though the client's minimum or maximum was first rejected or rounded to the old step |
| Replication.SetterTold | lib/server.c:206-224 | after any setter: no message means no change, and replaying the message makes an equal record equal again |
| Replication.NextKeepsLinked | lib/server.c:206-224 | with messages under way, replaying them in turn passes through exactly the records the server had |
| Replication.ClientCatchesUp | lib/client.c:78-144 | in every run of setters and deliveries the client has the server's record once all messages have arrived |
| Replication.ToldIff | lib/client.c:102-140 | for all five setters, from every record that runs of setters lead to: silence means no change and replay gives the server's record, exactly unless the change is too small to be signalled, or a new bound that the client accepts on its old grid does not come back to the server's, or the server's value is off the grid and the client accepts the grid point |
| Replication.TidyDriftsIff | lib/client.c:102-140 | from a record on its grid the same in terms of the request: a bound is kept by the tolerance where the old grid put it, or the server keeps a value off the new grid that the client snaps |
| Replication.StepReplaysIff | lib/client.c:102-132 | the same for the replay of a step change alone, field by field |
| Replication.DriftFreeCatchesUp | lib/client.c:78-144 | in every run without such a setter, from a sound record, the client has the server's record once all messages have arrived, for any steps |
| Replication.DriftShows | lib/client.c:78-144 | after one such setter from equal records it does not |
| Replication.ReplicaCanDrift | lib/client.c:102-132 | a step change after which the replica's maximum stays beside the server's |
| Replication.ValueCanDrift | lib/client.c:126-132 | one after which its value does |
| Replication.OldBoundCanDrift | lib/client.c:102-132 | and one that drifts only with the next setter: a maximum left beside the new grid moves on the client when the value is set |
| Services.CompareOrders | lib/mdns-service.c:94-135 | the comparison is zero only if all seven fields agree, and antisymmetric |
| Services.CompareIsTransitive | lib/mdns-service.c:94-135 | and transitive: a total order |
| Services.CompareIsByFields | lib/mdns-service.c:94-135 | the first field that differs decides: name, type, host, address, port, protocol, interface |
| Services.StrcmpIsDictionary | lib/mdns-service.c:94-135 | texts compare as in a dictionary |
| Services.WithoutRemovesInstances | lib/mdns.c:106-142 | a removal deletes exactly the matching instances and keeps all others, as often as they were there |
| Services.WithoutSplits | lib/mdns.c:106-142 | and in their order |
| Services.CountIsZeroIff | lib/mdns.c:87-104 | the count is zero exactly when nothing of that name and type is advertised |
| Services.CountTakesEach | lib/mdns.c:87-104 | each advert of that name and type counts once, wherever it stands in the list |
| Registry.Core.BuildTable | src/main.c:450-522 | the table has exactly the names of all registered peers, each entry leading to a live client and an index in range that holds that name |
| Registry.TablesAreOfTheirKind | src/main.c:450-522 | the table of the inputs has exactly the inputs of the registered peers, that of the outputs their outputs, and each entry leads to that point |
| Registry.Core.OnServiceAdded | src/mdns.c:280-332 | a start begins only for a wanted name that is neither pending nor registered |
| Registry.Core.OnServiceRemoved | src/mdns.c:238-278 | the name is neither pending nor registered afterwards, and the tables are right again |
| Registry.Core.OnStartFinished | src/mdns.c:192-236 | a result counts only if its own start is still the pending one; success moves the peer to the registered ones and rebuilds the tables |
| Registry.HandleKeepsSound | src/mdns.c:192-332 | no name is both pending and registered, and no start or client is known under two names, after every event |
| Registry.StaleResultIsIgnored | src/mdns.c:202-209 | the result of a start that was given up changes nothing after any events, removals and new starts under the same name included |
| Registry.RegisteredIff | src/mdns.c:192-332 | over every run: a name is registered exactly if the start that was pending for it succeeded and it has not gone away since, and its peer has the client, inputs and outputs of that start |
| Registry.PendingIff | src/mdns.c:192-332 | over every run: a name is pending exactly if a wanted service of that name was announced while it was unknown, and neither the start that this began has ended nor the name has gone away since; the record has that service's address and port |
| Discovery.Discovery.LookupService | lib/mdns.c:64-85 | the search by comparison finds exactly the services in the list |
| Discovery.Discovery.CountByNameAndType | lib/mdns.c:87-104 | the loop counts the instances of a name and type |
| Discovery.Discovery.RemoveInstance | lib/mdns.c:106-142 | the search restarted after each removal ends and leaves the list without the matching instances, in order, and returns how many went |
| Discovery.Discovery.Resolved | lib/mdns.c:171-223 | a known service changes nothing; a new one is appended and announced |
| Discovery.Discovery.BrowserRemoved | lib/mdns.c:255-280 | the peer is dropped exactly with the last instance of its name and type |
| Discovery.Discovery.StartFinished | src/mdns.c:192-236 | a start result acts on the books alone and keeps the invariant of both layers |
| Discovery.HeardKeepsNoGhosts | lib/mdns.c:171-280 | one event keeps: every pending or registered peer is advertised, and no service is listed twice |
| Discovery.NoGhostsEver | src/mdns.c:238-332 | so does every run of adverts, removals and start results |
| Discovery.ListedIff | lib/mdns.c:106-280 | over every run: a service is listed exactly if it was resolved and its instance has not gone since |
| Discovery.ListedStep | lib/mdns.c:171-223 | one piece of news adds or withdraws exactly what it is about, and what was resolved goes to the end of the list |
| Discovery.BookOfNews | lib/mdns.c:171-280 | the registry hears of exactly the services that were not listed and of the names whose last instance went, so that `Registry.RegisteredIff` and `Registry.PendingIff` tell who is known after any run of news |
| Start.Client.StartSync | lib/client.c:891-941 | the synchronous start: refused while pending or ready, otherwise ready with all three answers or failed without connection |
| Start.Client.StartAsync | lib/client.c:1159-1196 | an accepted start puts one task in flight, a refused one returns its task at once and changes nothing else |
| Start.Client.OnConnected | lib/client.c:1128-1157 | the first callback, with the ends by failure and by cancellation |
| Start.Client.OnInputs | lib/client.c:1060-1107 | the second one; inputs are applied before a cancellation is noticed |
| Start.Client.OnOutputs | lib/client.c:1010-1058 | the third one |
| Start.Client.OnStats | lib/client.c:971-1008 | the last one, which makes the client ready and returns the task |
| Start.CallbackSteps | lib/client.c:943-1157 | a callback either returns its task or moves it on by exactly one stage |
| Start.HandleKeepsSound | lib/client.c:891-1196 | every event keeps the relation between state, task in flight, connection and what has been applied over it |
| Start.WhatRunsGuarantee | lib/client.c:891-1196 | over all event and cancellation orders: ready only after inputs, outputs and stats in order over the connection still held, failed only without connection, every task returned at most once and after at most four callbacks, and all of them returned when none is pending |
| Start.ReadyIff | lib/client.c:891-1196 | over all event and cancellation orders: the client is ready exactly if some start got its connection and all three answers, through four callbacks that saw no cancellation or synchronously while no other was under way, and it has exactly what that start was given |
| Start.PhaseIff | lib/client.c:891-1196 | it is idle exactly before the first start, and pending exactly while some task has not returned |
| Start.RunIsRecorded | lib/client.c:943-1157 | while a task is in flight the client holds its cancellable and what its callbacks brought, none of which saw a cancellation |
| Start.AnswersAreKept | lib/client.c:971-1107 | an answer is kept as soon as it comes, even if its start is cancelled then or fails later |
| Start.ReadyForGood | lib/client.c:901-907 | ready is never left, and what it brought stays |
| Start.SecondStartIsRefused | lib/client.c:1168-1177 | a start while pending or ready changes nothing but the bookkeeping of its own task |
| Start.CallbacksRunOut | lib/client.c:943-1157 | no start is called back more than four times |
| Text.GString.Replace | lib/glib-compat.c:89-121 | the in-place loop ends, leaves the text with the leftmost non-overlapping occurrences replaced, up to the limit, and returns their number, wrapped to 32 bits |
| Text.PiecesJoin | lib/glib-compat.c:109-118 | the pieces between the occurrences, joined by the search text, are the original |
| Text.PiecesAreLeftmost | lib/glib-compat.c:109-118 | every piece ends at the first occurrence, and the last is free of it unless the limit was reached; inserted text is never searched |
| Text.LimitIsKept | lib/glib-compat.c:109-118 | never more replacements than the limit, and fewer only if nothing is left to replace; 0 means no limit |
| Text.LeftmostIsUnique | lib/glib-compat.c:109-118 | only one cut of a text is like this |
| Text.ReplacedLength | lib/glib-compat.c:109-118 | the length changes by the number of replacements times the difference in length |
| Text.DebugEnabled | lib/glib-compat.h:79-112 | enabled exactly when the list is "all" or has the domain as a whole word |
| Text.SeparatorsAre | lib/glib-compat.h:79-112 | words are separated by blanks, tabs and commas |
| Debugger.CoreDebug.AddPoint | src/debug-server.c:1176-1199 | a point with a name gets the next handle of the counter, which wraps around and leaves out 0; without a name nothing happens |
| Debugger.CoreDebug.RemovePoint | src/debug-server.c:1201-1211 | removes the point with that handle, or fails and changes nothing |
| Debugger.CoreDebug.InterceptChange | src/debug-server.c:1332-1363 | kept back while paused; otherwise a watchpoint, then a breakpoint on the name begins a pause and is told to all; otherwise nothing happens |
| Debugger.CoreDebug.InterceptApply | src/debug-server.c:1365-1391 | the same with breakpoints; a pass for no name only honours the pause |
| Debugger.SameHandleIff | src/debug-server.c:1190-1192 | in every run no handle is 0, and two points get the same one exactly when a multiple of 2^32 - 1 points was added from one to the other, breakpoints and watchpoints counted together |
| Debugger.PausedIff | src/debug-server.c:1233-1320 | in every run the core is paused exactly when a point was hit since it was last resumed, and what is reported is the first such hit |
| Debugger.KeptIff | src/debug-server.c:1332-1391 | in every run a change or a pass is kept from the rules exactly when it hits a point or some point was hit since the core was last resumed |
| Debugger.TableIff | src/debug-server.c:1176-1211 | over every run of calls: a table has a point under a handle exactly if a point of that kind and name was added, got that handle, and was not removed, or replaced when the handles began again |
| Debugger.PausedByCallsIff | src/debug-server.c:1332-1391 | the core is paused exactly if a call was about a name with a point standing for it, and none resumed it since; the stop told of is the first such call's, a watchpoint before a breakpoint, with its name, value and a handle that stands |
| Debugger.AnswersAre | src/debug-server.c:1176-1391 | what every call returns in terms of the calls before it, and that each pause is told of once, when it begins |
| Printing.Describe | src/expr.c:403-421 | the printers of operators, references, flags and, in a loop, argument lists produce Print |
| Printing.FormatEntry | src/engine.c:389-403 | the text of a label entry |
| Printing.FormatTrigger | src/engine.c:588-612 | the text of a trigger, its assignments appended in a loop |
| Printing.DerivedIsNeat | src/rules.y:209-365 | whatever the grammar derives has balanced parentheses and no comma outside them |
| Printing.ReadsBack | src/expr.c:176-190 | the printed text has a derivation exactly for printable expressions, and then only that expression, whatever precedence the parser applies |
| Printing.NamedFlags | src/expr.c:34-50 | the flags that can be printed are the four user bits, MANUAL_OVERRIDE and NO_HISTORY |
| Printing.EntryReadsBack | src/rules.y:153-160 | the text of an entry and a semicolon reads back as its value and condition and as nothing else |
| Printing.TriggerReadsBack | src/rules.y:162-195 | the text of a trigger and a semicolon reads back as its condition and its assignments in order and as nothing else |
| Printing.PrintingIsInjective | src/expr.c:675-686 | printable expressions with the same text are the same |
| Printing.NoPrefixMinus | src/rules.y:286-292 | no text that begins with the operator token '-' is an expression of the grammar; a signed number such as -5 is one VALUE token |

## Left out

- Filtering.FilteredAsksAsFull: is about the set of requests, since with nested passes a full pass may make one of them twice (`Limits.FullPassRepeatsRequest`); it asks that no left-out rule sets the changed point itself, which `Filtering.FilteredIsFullIff` shows to be needed.
- Runs.RunSettles: is about runs in which one point changes between passes. Two silent changes are outside it: a peer that goes away takes its points out of the tables without a pass (src/mdns.c:259-277), and flags that a peer reports are set after the changed value has already started its pass (lib/client.c:126-134).
- Cascades.PassSettles: asks for one writing rule per variable, because rivals can undo each other's writes for ever (`Limits.RivalsNeverSettle`); about output values it says which requests were made, not what a peer made of them (src/engine.c:225).
- Replication.ClientCatchesUp: asks that all steps are multiples of a quantum above the tolerance, because a replica can drift otherwise, exactly as `Replication.ToldIff` says.
- Records.OrderKept: is about fields, not grid points, and leaves out the step changes that `Records.OrderLostIff` describes exactly.
- Exprs.EvalFixed: evaluates all arguments of ROUND and LIMIT, where src/expr.c:473-509 takes the first one or the first three; a call with surplus arguments that fail differs.
- Nodes.Store.EvalFunction: nothing is said about the undefined result of the evaluation that freezes, only about later ones.
- Nodes.Store.Release: a node is taken out of the arena before its children are released, where the code frees it after them; nothing looks at it in between.
- CHANGED and EVAL inside engine passes and in printed text: the expressions of `Exprs` have neither, since both rewrite themselves; they are modelled on nodes.
- CHANGED with several arguments, calls with a wrong number of arguments, and calls of unknown functions, which the parser only reports.
- IEEE 754: not-a-number, infinities, signed zero and rounding, the digits that `%lf` prints, and x / 0, which is one fixed constant here.
- The scanner and the table-driven parser: texts are token sequences, and the semantic actions are what the grammar derives.
- D-Bus, Avahi, MySQL, GObject and GLib plumbing: answers of peers, cancellations and events are parameters.
- Flag-only changes as a reason to wake rules: only value changes are connected to the engine (src/mdns.c:89).
- The pass that follows a successful start (src/mdns.c:182): it is a pass without a name, which `Stratification` and `Cascades` treat.
- Freeing of pending records: a start is known by a token instead of an address, so reuse of an address is not modelled.
- Freshness of a client that just became ready: changes between snapshot and subscription are missed (lib/client.c:922-928).
- What `st_client_start_finish` adds when a task is cancelled after it returned.
- Descriptions and units of points, the replacement of whole point arrays in the server, statistics, and history.
- The debug server's bus methods and signals, which forward to the core's own; and what a pause costs: a change kept from the rules is not made up for when the core resumes, so the results of `Runs` are about runs without a pause.
- The variable table's fixed set of names: declarations are not re-parsed while the core works.
