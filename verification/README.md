# The semantic core of rbpmn, verified

A BPMN instance here is a token game. Tokens wait at nodes or travel a queue; a
command wakes one of them, and an advancer moves tokens until every one of them
waits again. This project models that core and what surrounds it, and proves what
its documentation and tests promise:

- **the step function** (six commands, five repair dispositions, the advancer,
  nested scopes, joins, timers, subscriptions, races, boundaries, teardown, freeze
  and repair): one invariant holds between any two moves, over parked tokens and
  tokens in flight alike, and no command meets the internal error;
- **deadlock**: of a process the linter accepts, an active instance always has
  something pending, and takes a command;
- **its events**: the history of any run, read from blank, is the state;
- **the linter's block rule**: what it accepts has the place invariants that make
  counting at joins correct;
- **the compiler's worklists**: flattening, wiring, side paths, colliding arms;
- **JSON merge patch** (RFC 7386, section 2) and assignment at a bound path;
- **the event stream**: cursors, the safe horizon, deletion and the floor, over
  every interleaving.

`dafny verify dfyconfig.toml` checks the whole project.

## How it is laid out

| files | what they hold |
|---|---|
| `Basics`, `Json`, `Compiled`, `State` | values, the document, the compiled graph with what lint guarantees of it, the instance and its events |
| `Advance`, `Step` | the specification: what each move and each command does, as functions |
| `Game`, `Invariant` | the token game with its place invariants, and the one invariant of the machine |
| `Keeping`, `Freezing`, `Arming`, `Entering`, `Leaving`, `Branching`, `Running` | every move keeps it; termination |
| `Stepping`, `Repairing`, `Runs` | every command keeps it; whole runs |
| `Regions` | the linter's blocks, and the place invariants that follow from them |
| `Liveness`, `Progress`, `Deadlock` | no join is full or starved, no race is disarmed; no deadlock |
| `Rings`, `Waits`, `Swapping`, `Lone`, `Ways` | where the advancer never rests, and the condition on the graph under which it always does |
| `Blocks` | a block that passes every rule |
| `Entries`, `Effects`, `Conservation` | what entering a node sets up, what a command does, what freeze and repair conserve |
| `Saying`, `Outcomes` | what a command says, in order; which are refused, which freeze, which end the instance |
| `Replay`, `Telling`, `Histories`, `Ledger`, `Accounts` | reading a history, and what every history and every run says |
| `Incident` | the open incident as read, against the repair |
| `EngineState`, `EngineAdvancer`, `EngineStep` | the instance and the advancer as classes updated in place, proved equal to the specification |
| `Flattening`, `Closure`, `Ambiguity`, `Unseen` | the compiler's loops; what one of them misses |
| `Stream` | the event stream |

The specification is functions because lemmas speak about it; the program is the
classes `InstanceState` and `Advancer` and the methods of `EngineStep`, whose
`ensures` equate the object's `View` with the specification's result.

The step function relies on `Running.Linted`: `Compiled.WellFormed` (flow lists exact
and within one scope, cardinalities, defaults, supported boundary hosts, one start per
scope), `Game.Certified` (each flow into a parallel join lies on a place invariant) and
`Compiled.SidePathsOk`. `Regions.AcceptedIsLinted` derives the last two from the rules
the linter checks (`Regions.LintAccepts`) and the side paths the compiler computes,
`Flattening` derives the wiring, and `Blocks` is a process that meets all of it.
Deadlock freedom also uses `Liveness.RaceRule`, that an event-based gateway has
alternatives (`crates/rbpmn-model/src/lint/mod.rs:558`).

## What was found

- The compiler's front page says a model that compiles "is guaranteed to run to
  quiescence" (`crates/rbpmn-core/src/compile.rs:7-9`). It is not: no lint rule
  refuses a cycle of gateways without a wait, and `Rings.SpinningNeverReturns` is a
  process that is linted and whose first step never returns. `Running.NoWaitFreeCycle`
  is the condition on the graph under which every step returns, and
  `Waits.NoCycleExactlyWhenNoneRecurs` says what it means for a reader of the graph.
  Without parallel gateways and subprocesses it is exact: `Lone.ReturnsExactlyWhenNoCycle`
  and `Ways.QuiescenceExactlyWhen`. Every other theorem about runs holds without the
  condition: a step that does not return is a step nothing of which is kept.
- `ambiguous_message_arm` computes "the same set `boundary-side-path` reasons about"
  (`crates/rbpmn-core/src/compile.rs:1599`), but does not follow error boundaries as
  the side path does (`crates/rbpmn-model/src/lint/mod.rs:781-784`). The refusal is
  sound and complete for the closure it computes (`Ambiguity.AmbiguousExactlyWhenTwo`);
  `Unseen.ClosuresAgreeExactlyWhen` says when that closure is the whole side path,
  `Unseen.RefusalCompleteExactlyWhen` when nothing is missed, and
  `Unseen.ErrorPathsAreUnseen` is a linted process, and a run of it, where something is.
- The internal error is reachable by one command only, an answer to a decision that
  was not asked; `Runs.StepOf` says exactly when.

## Model

| member | source | states |
|---|---|---|
| `Json.MergePatch` | crates/rbpmn-core/src/merge_patch.rs:9-26 | taking a patch's entries one at a time, in any order, builds the order-free result of RFC 7386 section 2 |
| `Json.MergeExactly` | crates/rbpmn-core/src/merge_patch.rs:9-26 | a document is the merged one if and only if every path reads as RFC 7386 says: what the patch writes is read, what it nulls is gone, every path it parts from reads as before |
| `Json.MergeIdempotent` | crates/rbpmn-core/src/merge_patch.rs:1-26 | patching twice with one patch is patching once |
| `Json.CompatiblePatchesCommute` | crates/rbpmn-core/src/merge_patch.rs:1-5 | two patches that write no member differently give one document in either order |
| `Json.IncompatiblePatchesClash` | crates/rbpmn-core/src/merge_patch.rs:1-5 | two that write some member differently have a document on which the order shows |
| `Json.CommuteExactlyWhenCompatible` | crates/rbpmn-core/src/merge_patch.rs:1-5 | parallel branches do not clobber each other: patches commute on every document if and only if they write no member differently |
| `Json.AssignReadsBack` | crates/rbpmn-core/src/step.rs:282-305 | what is assigned at a path is what the path reads afterwards |
| `Json.AssignKeepsOtherPaths` | crates/rbpmn-core/src/step.rs:282-305 | every path that parts from the bound one reads as before, present or absent |
| `Json.KeyReads` | crates/rbpmn-core/src/step.rs:346-357 | a text is its own key, an integer of 64 bits, signed or unsigned, the integer written out in decimal, and nothing else is a key |
| `Json.KeysDiffer` | crates/rbpmn-core/src/step.rs:346-352 | different integers never share a key |
| `Game.Rewrite` | crates/rbpmn-core/src/step.rs:1477-1538 | replacing tokens by others with as many marks of every place invariant keeps one token per invariant and scope |
| `Game.SidePathUnmarked` | crates/rbpmn-core/src/compile.rs:1345-1374 | no place invariant counts a token on a side path |
| `Keeping.Release` | crates/rbpmn-core/src/step.rs:2053-2140 | a parked token released with all it owns and the scopes it waits on keeps the invariant |
| `Freezing.FreezeParked` | crates/rbpmn-core/src/step.rs:1947-2047 | a freeze on a parked token keeps the invariant |
| `Freezing.FreezeHand` | crates/rbpmn-core/src/step.rs:1947-2047 | a freeze on the token in hand keeps it too |
| `Arming.ArmAllKeeps` | crates/rbpmn-core/src/step.rs:1596-1613 | arming a host's boundaries keeps the invariant, whether all arm or one freezes the instance |
| `Leaving.ExitsKeeps` | crates/rbpmn-core/src/step.rs:1867-1898 | a token leaving with everything it holds keeps the invariant |
| `Leaving.TornCompletes` | crates/rbpmn-core/src/step.rs:2074-2140 | tearing a scope down and completing it is one release of its parent token, however nested |
| `Branching.JoinFree` | crates/rbpmn-core/src/step.rs:1477-1500 | one-safety at the door: nobody waits at a join on the flow the entering token is on, so the second-token error is unreachable |
| `Branching.EnterJoinKeeps` | crates/rbpmn-core/src/step.rs:1477-1538 | waiting at a join and firing it keep the invariant |
| `Branching.EnterEndKeeps` | crates/rbpmn-core/src/step.rs:2053-2096 | ending keeps the invariant, through cascading scope completion |
| `Running.EnterKeeps` | crates/rbpmn-core/src/step.rs:1198-1450 | entering any node is never the internal error and keeps the invariant |
| `Running.Advance1Keeps` | crates/rbpmn-core/src/step.rs:1165-1177 | so does every turn of the advancer's loop |
| `Running.AdvancedKeeps` | crates/rbpmn-core/src/step.rs:1165-1177 | and any number of turns, whether or not the loop ends |
| `Running.EnterLightens` | crates/rbpmn-core/src/step.rs:1198-1450 | every turn makes the queue lighter when no cycle is free of waits |
| `Running.Quiesces` | crates/rbpmn-core/src/step.rs:1165-1177 | without a wait-free cycle the loop ends within as many turns as the queue weighs |
| `Running.SettleRests` | crates/rbpmn-core/src/step.rs:1178-1196 | asking halted decisions again and completing an emptied instance leave it at rest |
| `Running.RunRests` | crates/rbpmn-core/src/step.rs:1165-1196 | a run that ends leaves the instance at rest |
| `Rings.RingNeverEnds` | crates/rbpmn-core/src/step.rs:1165-1177 | a token alone on exclusive gateways that choose one another keeps the loop busy for ever |
| `Rings.AnyCycleSpins` | crates/rbpmn-core/src/compile.rs:5-9 | over any cycle of exclusive gateways the same graph, with conditions kept to the cycle, passes the same lint, and every gateway of the cycle then chooses another of it whatever the document says |
| `Rings.SpinningNeverReturns` | crates/rbpmn-core/src/compile.rs:5-9 | a concrete linted process whose first step never returns: the guarantee of quiescence fails for it |
| `Swapping.SameOpening` | crates/rbpmn-core/src/step.rs:569-1124 | no command reads a flow's condition: processes that differ in conditions alone open every command alike |
| `Swapping.SameAfter` | crates/rbpmn-core/src/step.rs:1379-1406 | a condition is read only where a token has come: processes that differ in the conditions of some gateways have the same runs until one of those is entered |
| `Lone.RunsAlone` | crates/rbpmn-core/src/step.rs:1165-1177 | without parallel gateways and subprocesses no run ever halts a token in flight, and one move is in flight at most |
| `Lone.CycleHolds` | crates/rbpmn-core/src/compile.rs:5-9 | a cycle of exclusive gateways that a run comes to can hold that run's token for ever: a reachable step that does not return |
| `Lone.SpinIsCyclic` | crates/rbpmn-core/src/compile.rs:5-9 | and a step that does not return has come to such a cycle |
| `Lone.SpinsExactlyWhenCycleIsComeTo` | crates/rbpmn-core/src/compile.rs:5-9 | so some step of some run fails to return, under some conditions, if and only if some run comes to a cycle of exclusive gateways |
| `Lone.ReturnsExactlyWhenNoCycle` | crates/rbpmn-core/src/compile.rs:5-9 | where every exclusive gateway can be come to, every step of every run returns, whatever the conditions, if and only if no cycle is free of waits |
| `Ways.OneFurther` | crates/rbpmn-core/src/step.rs:569-1124 | where some run can come to a node, some run can go on from it by any of its flows, unless it is a race: by a command if it parks there, by a repair if it freezes |
| `Ways.QuiescenceExactlyWhen` | crates/rbpmn-core/src/compile.rs:5-9 | read off the graph: with sequence flows leading to every exclusive gateway through no race, some step fails to return if and only if some cycle is free of waits |
| `Blocks.BlockIsLinted` | crates/rbpmn-core/src/step.rs:1477-1538 | a fork-task-join block has the certificates the theorems assume, and no wait-free cycle |
| `Stepping.CompleteWorkItemSound` | crates/rbpmn-core/src/step.rs:599-636 | completing an item opens a sound step or refuses, never with the internal error |
| `Stepping.CompleteDecisionSound` | crates/rbpmn-core/src/step.rs:637-718 | so does answering a decision that was asked |
| `Stepping.CatcherGoesOn` | crates/rbpmn-core/src/step.rs:377-408 | whoever catches an error is parked around the failing host, and its boundary may take it on |
| `Stepping.RaiseErrorSound` | crates/rbpmn-core/src/step.rs:719-776 | so does raising an error, caught or not |
| `Stepping.FireTimerSound` | crates/rbpmn-core/src/step.rs:932-1009 | so does firing a timer of any kind |
| `Stepping.RearmAgrees` | crates/rbpmn-core/src/step.rs:1019-1039 | the key a side delivery checks up front is the key its re-arm computes afterwards |
| `Stepping.DeliverMessageSound` | crates/rbpmn-core/src/step.rs:1010-1124 | so does delivering a message |
| `Repairing.StartSound` | crates/rbpmn-core/src/step.rs:575-598 | starting opens a sound step |
| `Repairing.RepairSound` | crates/rbpmn-core/src/step.rs:777-931 | every disposition of a repair opens a sound step or refuses |
| `Runs.OpenSound` | crates/rbpmn-core/src/step.rs:569-1124 | no command on an instance at rest is the internal error, but for the answer to a decision nobody asked |
| `Runs.StepOf` | crates/rbpmn-core/src/step.rs:569-1124 | a step leaves the instance at rest; an error leaves it exactly as it was; the internal error occurs if and only if an unasked decision is answered; without a wait-free cycle every step returns |
| `Runs.After` | crates/rbpmn-core/src/step.rs:569-1124 | every run of any commands from a new instance is at rest after each of them |
| `Entries.ArmsEach` | crates/rbpmn-core/src/step.rs:1596-1660 | arms are made one after the other, each row as its element and the document say, each said, nothing else changed; the first that cannot be ends it with an incident there |
| `Entries.TaskSetUp` | crates/rbpmn-core/src/step.rs:1237-1265 | a task entered: its item open, its token waiting on it, every boundary armed in order |
| `Entries.DecisionSetUp` | crates/rbpmn-core/src/step.rs:1216-1236 | a decision entered: asked once, its token waiting for the answer, nothing armed |
| `Entries.TimerCatchSetUp` | crates/rbpmn-core/src/step.rs:1266-1280 | a timer catch entered: its timer armed and its token waiting on it, or an incident there |
| `Entries.MessageCatchSetUp` | crates/rbpmn-core/src/step.rs:1281-1297 | a message catch entered: its subscription open, its token waiting on it, every boundary armed; or an incident |
| `Entries.SubProcessSetUp` | crates/rbpmn-core/src/step.rs:1334-1370 | a subprocess entered: its scope open, every boundary armed before one token starts the body |
| `Entries.RaceSetUp` | crates/rbpmn-core/src/step.rs:1298-1333 | an event gateway entered: every alternative armed once, in the order of its flows, none entered |
| `Entries.StartPasses` | crates/rbpmn-core/src/step.rs:1207-1211 | a start is passed by its one flow |
| `Entries.ExclusiveTakesFirst` | crates/rbpmn-core/src/step.rs:1379-1406 | the token leaves by the only flow, whatever its condition, or the first non-default whose condition is true, or the default where none is |
| `Entries.ForkSpreads` | crates/rbpmn-core/src/step.rs:1407-1421 | a fork sends one new token down each outgoing flow, in order |
| `Effects.WorkSends` | crates/rbpmn-core/src/step.rs:599-636 | a completed item sends its token on with all it held released, over the patched document, and touches nobody else |
| `Effects.AnswerSends` | crates/rbpmn-core/src/step.rs:637-718 | an answered decision sends its token on, the answer at the bound path |
| `Effects.ErrorSends` | crates/rbpmn-core/src/step.rs:719-776 | a caught error sends the catching host's token out of the boundary, everything inside it gone; an uncaught one freezes at the failing element |
| `Effects.TimerSends` | crates/rbpmn-core/src/step.rs:932-1009 | a timer that fires sends its token past its element; in a race every other arm is gone |
| `Effects.MessageSends` | crates/rbpmn-core/src/step.rs:1010-1124 | so does a delivered message, over the patched document |
| `Effects.TimerGoesAside` | crates/rbpmn-core/src/step.rs:1694-1710 | a non-interrupting timer leaves its host as it was; a cycle with repeats left is armed again with one fewer, and one token goes out |
| `Effects.RepairSends` | crates/rbpmn-core/src/step.rs:786-931 | an accepted repair: the cause, the nearest host that takes the code, or the token a scope left empty kept waiting goes its way with all it held; every halted move follows in token order; the document is patched or answered |
| `Conservation.FreezeKeepsEverybody` | crates/rbpmn-core/src/step.rs:1947-2047 | a freeze loses nobody but the scope its cause waited on: parked tokens stay, queued ones halt on their flow, others' work and arms are untouched |
| `Conservation.FreezeInHandKeepsEverybody` | crates/rbpmn-core/src/step.rs:1947-2047 | a freeze of the token in hand loses nobody at all |
| `Conservation.FreezeThenThaw` | crates/rbpmn-core/src/step.rs:906-930 | what a freeze halted a repair queues again, each move once on the flow it was on, and asks again exactly the decisions that were pending |
| `Conservation.ThawRestores` | crates/rbpmn-core/src/step.rs:1178-1192 | once asked again, everybody but the cause is parked as before the freeze |
| `Conservation.RepairResumes` | crates/rbpmn-core/src/step.rs:906-930 | any repair but abandoning the instance queues again exactly the halted moves whose scope survived, each once, with one new move at most |
| `Conservation.StatusTells` | crates/rbpmn-core/src/state.rs:36-80 | failed is exactly one token at its incident; active means none is halted or at an incident |
| `Conservation.JoinsAreOneSafe` | crates/rbpmn-core/src/step.rs:1477-1538 | of everybody parked, queued or halted in one scope at most one is on a flow into a join |
| `Conservation.JoinFiresOnce` | crates/rbpmn-core/src/step.rs:1500-1538 | a firing join takes everybody waiting at it in its own scope, one for each incoming flow, and sends one on |
| `Conservation.JoinWaits` | crates/rbpmn-core/src/step.rs:1500-1538 | while a flow is missing an arrival parks on its flow, and nothing else happens |
| `Conservation.LastOutResumes` | crates/rbpmn-core/src/step.rs:2053-2096 | an end inside a subprocess closes its scope off and resumes the parent token if and only if nobody, parked or in flight, is left in the scope; else nothing changes |
| `Conservation.TerminateEndsScope` | crates/rbpmn-core/src/step.rs:1434-1446 | a terminate end in a subprocess ends that subprocess only: its subtree's tokens, work, arms, scopes and moves are gone, the parent token leaves by its one flow, everything outside is untouched, the instance stays active |
| `Conservation.TerminateEndsInstance` | crates/rbpmn-core/src/step.rs:1446-1472 | one outside every subprocess terminates the instance: nobody, no arm and no open item is left |
| `Conservation.EndConsumes` | crates/rbpmn-core/src/step.rs:1426-1433 | an end outside every subprocess consumes its token and nothing else |
| `Conservation.AbandonStrandsNobody` | crates/rbpmn-core/src/step.rs:459-470 | an accepted abandon takes the last token of its scope, or one no parallel gateway lies ahead of |
| `Outcomes.RefusedExactlyWhen` | crates/rbpmn-core/src/step.rs:569-931 | a command is refused with an error if and only if that error stands in its way, for every error there is: status, unknown rows, closed items, a boundary that could not re-arm, incident numbers, reasons, dispositions |
| `Outcomes.DecisionFails` | crates/rbpmn-core/src/step.rs:664-681 | a decision without an answer freezes the instance on its token, whatever boundaries there are: nothing written, nobody on the way, one incident with the reason given |
| `Outcomes.ErrorLands` | crates/rbpmn-core/src/step.rs:719-776 | the nearest host on the walk outward with an entry for the code, or a codeless one where it has none, loses its token to that boundary; with no such host the instance freezes where the item failed |
| `Outcomes.StartOpens` | crates/rbpmn-core/src/step.rs:575-598 | a start: the document given and one token into the root scope |
| `Outcomes.FirstComesFirst` | crates/rbpmn-core/src/step.rs:1165-1177 | moves are taken oldest first, and what they queue goes behind |
| `Outcomes.Settles` | crates/rbpmn-core/src/step.rs:1178-1196 | an emptied instance is completed, not terminated; any other stays active, its halted decisions asked again in order |
| `Outcomes.AbandonsInstance` | crates/rbpmn-core/src/step.rs:843-905 | abandoning the instance terminates it, every item closed, and says so last |
| `Outcomes.ResumesAt` | crates/rbpmn-core/src/compile.rs:1489-1503 | a repair resumes at a boundary's host, an alternative's gateway, and otherwise at the incident itself |
| `Saying.WorkSays` | crates/rbpmn-core/src/step.rs:599-636 | in order: the completion, the patch if it is not empty, withdrawals, the task passed |
| `Saying.AnswerSays` | crates/rbpmn-core/src/step.rs:682-718 | in order: the answer, with its reason only where it is null, and the decision passed |
| `Saying.ErrorSays` | crates/rbpmn-core/src/step.rs:719-776 | in order: the failure under its code, withdrawals, and the boundary or the incident under that code |
| `Saying.TimerSays` | crates/rbpmn-core/src/step.rs:932-1009 | in order: the firing, withdrawals, and the way past the element, through the gateway where it was a race |
| `Saying.MessageSays` | crates/rbpmn-core/src/step.rs:1010-1124 | in order: the receipt, the patch, withdrawals, and the way past the element |
| `Saying.TimerBesideSays` | crates/rbpmn-core/src/step.rs:1687-1710 | beside its host: the firing, the next occurrence with one repeat fewer where one is left, and the boundary |
| `Saying.MessageBesideSays` | crates/rbpmn-core/src/step.rs:1820-1865 | beside its host: the receipt, the patch, the subscription anew, and the boundary |
| `Saying.RepairSays` | crates/rbpmn-core/src/step.rs:786-931 | in order: the repair by number with all its disposition carries and the reason given, the patch, and the way on |
| `Saying.EndSays` | crates/rbpmn-core/src/step.rs:1426-1448 | in order: the end, withdrawals, and the subprocess passed or the instance terminated |
| `Saying.WithdrawsInOrder` | crates/rbpmn-core/src/step.rs:2153-2181 | timers before subscriptions, each by number |
| `Saying.TearsDownInOrder` | crates/rbpmn-core/src/step.rs:2113-2140 | a scope is torn down token by token, of each its work, its timers, its subscriptions, by number |
| `Saying.TerminatesInOrder` | crates/rbpmn-core/src/step.rs:1456-1472 | an instance is ended work first, then timers, then subscriptions, by number |
| `Histories.HistoryReads` | crates/rbpmn-core/src/event.rs:1-42 | the events are a complete account: read from blank by a strict reader, the history of any run is exactly the document, the open work, the armed timers, the subscriptions and the counters of its instance |
| `Histories.StepReads` | crates/rbpmn-core/src/event.rs:1-42 | the same of each step, from any instance at rest |
| `Telling.EnterTold` | crates/rbpmn-core/src/step.rs:1198-1450 | what entering a node says reads as what it changed |
| `Ledger.RowLife` | crates/rbpmn-core/src/step.rs:1785-1796 | in any readable history a row is opened at most once, closed at most once and only after, and is open exactly between |
| `Ledger.IncidentsInOrder` | crates/rbpmn-core/src/state.rs:318-329 | in any readable history incidents are raised 0, 1, 2, … and each is repaired before the next |
| `Ledger.DocumentIsFold` | crates/rbpmn-core/src/event.rs:24-42 | in any readable history the document is the forward fold of its writes |
| `Ledger.CyclesBounded` | crates/rbpmn-core/src/step.rs:1687-1710 | in any readable history no timer chain fires more often than its repeats, one timer of it is armed at a time, and it carries what is left |
| `Accounts.RunDocument` | crates/rbpmn-core/src/event.rs:24-42 | after any commands the document is the started one with every patch merged and every answer assigned, in event order |
| `Accounts.RunRows` | crates/rbpmn-core/src/step.rs:2145-2181 | after any commands a row is in the state exactly between its one opening and its one closing |
| `Accounts.RunIncidents` | crates/rbpmn-core/src/state.rs:318-329 | after any commands incidents have run 0, 1, 2, … without a gap, as the state's counter and status say |
| `Accounts.ResentRepair` | crates/rbpmn-core/src/step.rs:786-795 | an incident once repaired is refused by number ever after, and the refusal changes nothing |
| `Accounts.RunCycles` | crates/rbpmn-core/src/step.rs:966-989 | after any commands no cycle has fired too often, and an armed timer's token is there |
| `Accounts.EveryMoment` | crates/rbpmn-core/src/step.rs:1477-1538 | at every moment of every step of every run, no internal error and no two tokens of one scope on one flow into a join |
| `Accounts.SideDelivery` | crates/rbpmn-core/src/step.rs:1019-1039 | a delivery beside a host is refused exactly when its re-arm would fail; an accepted one re-arms, leaves the host as it was and sends one token out |
| `Incident.CatcherIs` | crates/rbpmn-core/src/step.rs:377-408 | the nearest host on the walk outward that catches at all is the one that catches |
| `Incident.CaughtBy` | crates/rbpmn-core/src/compile.rs:1436-1446 | of one host's boundaries an exact code goes before a codeless one and the first of its kind before a later; nothing catches if and only if none names the code and none is codeless |
| `Incident.Nearest` | crates/rbpmn-core/src/step.rs:397-408 | no host nearer than the one that catches has a boundary that would; nobody catches if and only if none on the walk has one |
| `Incident.NearerCatchAllWins` | crates/rbpmn-core/src/step.rs:389-408 | a nearer catch-all beats a farther exact code |
| `Incident.CodesLand` | crates/rbpmn-core/src/step.rs:414-454 | a code lands exactly when the list names it or has a codeless entry, and where that entry says |
| `Incident.EntrySays` | crates/rbpmn-core/src/step.rs:414-454 | each entry names the boundary that takes its code at the nearest host that can, and that host as torn down unless it failed itself |
| `Incident.EntriesInOrder` | crates/rbpmn-core/src/step.rs:414-454 | no code twice, and only the first entry codeless, if any is |
| `Incident.ReadShows` | crates/rbpmn-core/src/step.rs:472-563 | the read shows the number a repair must name, where the instance failed, where a repair re-enters, how many tokens are halted, and five options in order, each with what it takes, the codes under an open divert only |
| `Incident.ReadAgreesWithRepair` | crates/rbpmn-core/src/step.rs:472-563 | with the open number, a reason and what the option takes, a repair is refused exactly as the read says |
| `Closure.Reach` | crates/rbpmn-core/src/compile.rs:1345-1374 | the worklist marks exactly what the seed reaches |
| `Closure.SidePath` | crates/rbpmn-core/src/compile.rs:1345-1374 | a node is flagged exactly when a non-interrupting boundary leads to it in one step or more |
| `Closure.CompiledSidePathsOk` | crates/rbpmn-core/src/compile.rs:1345-1374 | with the linter's rule about parallel gateways the compiled flags are what abandoning relies on |
| `Closure.NoJoinAhead` | crates/rbpmn-core/src/step.rs:459-470 | no join lies ahead of a node on a side path |
| `Flattening.LayOutScope` | crates/rbpmn-core/src/compile.rs:1061-1078 | one scope laid out: its nodes in order, each subprocess's body put last |
| `Flattening.Flatten` | crates/rbpmn-core/src/compile.rs:1061-1078 | the flat form is the tree's scopes and nodes, as many as there are, each scope later than the one around it, each owned by one subprocess |
| `Flattening.NothingMissed` | crates/rbpmn-core/src/compile.rs:1061-1078 | every node of the tree, at any depth, is in the flat form |
| `Flattening.Wire` | crates/rbpmn-core/src/compile.rs:1239-1266 | every line is wired from its source to its target, and a line with an unknown end is refused |
| `Flattening.FromIs` | crates/rbpmn-core/src/compile.rs:1256-1258 | outgoing lists are the exact inverse of the flows, in order, without repeats |
| `Flattening.ToIs` | crates/rbpmn-core/src/compile.rs:1256-1258 | so are incoming lists |
| `Flattening.BuiltIsWired` | crates/rbpmn-core/src/compile.rs:1239-1266 | flows kept in one scope are wired as the step function relies on |
| `Flattening.BuiltIsNested` | crates/rbpmn-core/src/compile.rs:1061-1078 | every scope nests in an older one through one subprocess |
| `Ambiguity.ParentScopes` | crates/rbpmn-core/src/compile.rs:1570-1575 | one pass gives each scope the scope around it |
| `Ambiguity.Inside` | crates/rbpmn-core/src/compile.rs:1576-1587 | the walk up the scope chain ends, and finds exactly the scopes around |
| `Ambiguity.BodyOf` | crates/rbpmn-core/src/compile.rs:1588-1596 | a subprocess's body is everything inside it at any depth |
| `Ambiguity.SideClosure` | crates/rbpmn-core/src/compile.rs:1597-1624 | the worklist collects exactly what flows, attached boundaries and bodies lead to |
| `Ambiguity.LiveSet` | crates/rbpmn-core/src/compile.rs:1626-1664 | the arms live with a host are its boundaries, its own, its body's and those beside it |
| `Ambiguity.GroupsOf` | crates/rbpmn-core/src/compile.rs:1665-1690 | a host's groups are exactly the sets of two arms or more with one message and one binding, in the order of message and binding |
| `Ambiguity.AmbiguousArms` | crates/rbpmn-core/src/compile.rs:1563-1692 | the refusal lists every colliding group once and no other, host by host, each at the first host that has it |
| `Ambiguity.AmbiguousExactlyWhenTwo` | crates/rbpmn-core/src/compile.rs:1535-1562 | a group is reported if and only if two distinct arms with one message and one binding are live with one host |
| `Unseen.ClosuresAgreeExactlyWhen` | crates/rbpmn-core/src/compile.rs:1597-1624 | of any process and boundary: following error boundaries too finds the same nodes if and only if what the closure finds holds the error boundaries of its own hosts |
| `Unseen.RefusalCompleteExactlyWhen` | crates/rbpmn-core/src/compile.rs:1535-1562 | a host's collisions, error paths counted, are all reported if and only if no arm that only an error path brings beside the host meets another for its message and binding |
| `Unseen.RefusalComplete` | crates/rbpmn-core/src/compile.rs:1535-1562 | so they are for every host when the closure of each of its boundaries holds its error boundaries |
| `Unseen.UnseenIsAccepted` | crates/rbpmn-model/src/lint/mod.rs:772-860 | the counterexample breaks no rule about structure, side paths or blocks, and carries the side paths the compiler computes |
| `Unseen.ErrorPathsAreUnseen` | crates/rbpmn-core/src/compile.rs:1597-1624 | of that process nothing is reported; it is an arm of the kind missed, and a run of three commands freezes on the duplicate subscription the refusal is there to rule out |
| `Stream.HorizonIs` | crates/rbpmn-engine/src/events.rs:135-143 | the horizon is the oldest transaction still running, else the next one |
| `Stream.PageIs` | crates/rbpmn-engine/src/events.rs:135-147 | a page is in strictly increasing order and leaves nothing out before its end |
| `Stream.ReadIs` | crates/rbpmn-engine/src/events.rs:102-196 | what an answered read may count on |
| `Stream.ReadTells` | crates/rbpmn-engine/src/events.rs:107-196 | a read withholds nothing it could hand out: a page short of its limit has every final row above the cursor, a full one leaves out only later rows |
| `Stream.ReadRefuses` | crates/rbpmn-engine/src/events.rs:107-133 | each refusal exactly when: a negative cursor, no limit, no floor, a cursor below it |
| `Stream.CaughtUp` | crates/rbpmn-engine/src/events.rs:7-49 | over every interleaving: once nobody is writing, a reader whose page is short has received every event there is |
| `Stream.NothingBehind` | crates/rbpmn-engine/src/events.rs:12-20 | no commit can appear behind a released cursor |
| `Stream.ResumeLosesNothing` | crates/rbpmn-engine/src/events.rs:35-49 | a resume that is answered has lost nothing above its cursor |
| `Stream.EveryInterleaving` | crates/rbpmn-engine/src/events.rs:7-49 | over every interleaving of begins, first writes, locks, inserts, commits, aborts, deletions and reads: everything committed and kept at or below a released cursor was received, an instance's ids ascend in step order, and what is gone lies below the floor |
| `Stream.CommitExactly` | crates/rbpmn-engine/src/retention.rs:1007-1078 | a commit adds its own events and takes those of the instances it retires, and no others; nothing but a commit changes the stream |
| `Stream.OnlyTheRetiredGo` | crates/rbpmn-engine/src/retention.rs:1007-1078 | over every interleaving: an event once committed stays in the stream unless a session was told to retire its instance |
| `Stream.FloorOnlyRises` | crates/rbpmn-engine/src/retention.rs:1007-1078 | the floor never falls, and rises only to the position of a row then deleted |
| `Stream.StreamOrderIsNotStepOrder` | crates/rbpmn-engine/src/events.rs:22-33 | the stream's order may differ from an instance's step order: an interleaving that does it |
| `Regions.ComesFrom` | crates/rbpmn-model/src/lint/regions.rs:218-238 | what comes into a block comes from it or from its split, boundaries included |
| `Regions.NotInEachOther` | crates/rbpmn-model/src/lint/regions.rs:1-37 | two blocks never hold each other's splits |
| `Regions.NoStrangerDelivers` | crates/rbpmn-model/src/lint/regions.rs:273-286 | no split but its own delivers to a join directly, however blocks nest |
| `Regions.DeliveredMarked` | crates/rbpmn-model/src/lint/regions.rs:288-311 | the flow a join receives from a branch carries a mark when the join does and the branch is the chosen one |
| `Regions.ChosenIsConserved` | crates/rbpmn-model/src/lint/regions.rs:1-37 | the marking of one chosen branch of every split is a place invariant |
| `Regions.BlocksCertify` | crates/rbpmn-model/src/lint/regions.rs:1-37 | the balanced-gateways rule makes counting at joins correct: of a process it accepts, every flow into a join lies on a place invariant |
| `Regions.AcceptedIsLinted` | crates/rbpmn-model/src/lint/mod.rs:772-860 | a process the linter accepts, with the side paths the compiler computes, is all the step function relies on |
| `Progress.EveryBranchHolds` | crates/rbpmn-model/src/lint/regions.rs:1-37 | while a token stands on a flow into a join, every branch of the join's block has a token of the same scope |
| `Progress.InnerBlock` | crates/rbpmn-model/src/lint/regions.rs:1-37 | a block that ends within another lies wholly within it |
| `Progress.NoJoinIsStarved` | crates/rbpmn-model/src/lint/regions.rs:288-311 | after any commands, while a token waits at a join, each flow still missing ends a branch that somebody of the scope is on |
| `Deadlock.RunsLive` | crates/rbpmn-core/src/step.rs:1298-1333 | after any commands no join waits with everybody there, and every race has an arm |
| `Deadlock.NoDeadlock` | crates/rbpmn-core/tests/explorer/mod.rs:48-65 | no deadlock: after any commands an active instance has open work, an arm or an asked decision, and takes a command that is no repair, whose step returns if no cycle is wait-free |
| `Blocks.BlockIsAccepted` | crates/rbpmn-model/src/lint/regions.rs:1-37 | the rules hold of a fork-task-join block |
| `Waits.NoCycleExactlyWhenNoneRecurs` | crates/rbpmn-core/src/compile.rs:5-9 | the condition under which every step returns holds if and only if no set of nodes hands a token on within itself without a wait |
| `Waits.CycleIsExclusive` | crates/rbpmn-core/src/compile.rs:5-9 | without parallel gateways and subprocesses the condition fails if and only if there is a cycle of exclusive gateways, which conditions can make spin |
| `Waits.SpinningIsAccepted` | crates/rbpmn-model/src/lint/mod.rs:37-75 | the process that never returns breaks no rule about structure, side paths or blocks |
| `EngineState.InstanceState.constructor` | crates/rbpmn-core/src/state.rs:178-195 | a new instance |
| `EngineState.InstanceState.NextTokenId` | crates/rbpmn-core/src/state.rs:265-270 | a token id is the counter, which moves on |
| `EngineState.InstanceState.AllocWorkItem` | crates/rbpmn-core/src/state.rs:331-336 | an item is stored under the counter, which moves on |
| `EngineState.InstanceState.AllocTimer` | crates/rbpmn-core/src/state.rs:338-343 | so is a timer |
| `EngineState.InstanceState.AllocScope` | crates/rbpmn-core/src/state.rs:345-350 | so is a scope |
| `EngineState.InstanceState.AllocSubscription` | crates/rbpmn-core/src/state.rs:352-357 | so is a subscription |
| `EngineState.InstanceState.AllocIncident` | crates/rbpmn-core/src/state.rs:325-329 | an incident number is the counter, which moves on |
| `EngineState.InstanceState.ScopeSubtree` | crates/rbpmn-core/src/state.rs:229-246 | the growing list ends as exactly the scope and all nested in it, each once |
| `EngineAdvancer.Advancer.Leave` | crates/rbpmn-core/src/step.rs:1559-1574 | a token queued on a flow |
| `EngineAdvancer.Advancer.LeaveSingle` | crates/rbpmn-core/src/step.rs:1542-1557 | a token leaves by the one outgoing flow, or the error |
| `EngineAdvancer.Advancer.CancelWorkItem` | crates/rbpmn-core/src/step.rs:1785-1796 | an open item closes once, and says so |
| `EngineAdvancer.Advancer.WithdrawArms` | crates/rbpmn-core/src/step.rs:2153-2181 | a token's timers, then its subscriptions, go in id order, each said |
| `EngineAdvancer.Advancer.TearDownScope` | crates/rbpmn-core/src/step.rs:2113-2140 | the nested scopes, their tokens, work, arms and queued moves go, token by token; the entry itself stays for its caller |
| `EngineAdvancer.Advancer.Strip` | crates/rbpmn-core/src/step.rs:1955-1989 | what a failing token holds is withdrawn, with the scope it waits on |
| `EngineAdvancer.Advancer.HaltPending` | crates/rbpmn-core/src/step.rs:2018-2028 | pending decisions halt |
| `EngineAdvancer.Advancer.HaltMoves` | crates/rbpmn-core/src/step.rs:2029-2038 | queued moves are parked halted at their targets, on their flows |
| `EngineAdvancer.Advancer.Freeze` | crates/rbpmn-core/src/step.rs:1947-2047 | the freeze of the specification |
| `EngineAdvancer.Advancer.RecordTimer` | crates/rbpmn-core/src/step.rs:1661-1686 | a timer recorded and said |
| `EngineAdvancer.Advancer.ArmTimer` | crates/rbpmn-core/src/step.rs:1625-1660 | a timer armed, or the freeze on its element |
| `EngineAdvancer.Advancer.Subscribe` | crates/rbpmn-core/src/step.rs:1899-1935 | a subscription opened, or the freeze on its element |
| `EngineAdvancer.Advancer.ArmBoundaries` | crates/rbpmn-core/src/step.rs:1596-1613 | boundaries armed in order, stopping at the first that cannot |
| `EngineAdvancer.Advancer.RearmCycle` | crates/rbpmn-core/src/step.rs:1694-1710 | the next occurrence of a cycle, unless that was the last |
| `EngineAdvancer.Advancer.CompleteScope` | crates/rbpmn-core/src/step.rs:2074-2096 | a completed scope resumes its parent token |
| `EngineAdvancer.Advancer.CompleteScopeIfEmpty` | crates/rbpmn-core/src/step.rs:2053-2072 | only when nobody is left in it |
| `EngineAdvancer.Advancer.Terminate` | crates/rbpmn-core/src/step.rs:1456-1472 | the instance ended, all of it withdrawn |
| `EngineAdvancer.Advancer.InterruptToBoundary` | crates/rbpmn-core/src/step.rs:1867-1898 | a host's token sent out of its boundary |
| `EngineAdvancer.Advancer.InterruptHost` | crates/rbpmn-core/src/step.rs:1726-1777 | the host's own wait ended first |
| `EngineAdvancer.Advancer.SpawnSideToken` | crates/rbpmn-core/src/step.rs:1854-1865 | a sibling sent out of a boundary |
| `EngineAdvancer.Advancer.TakeGatewayPath` | crates/rbpmn-core/src/step.rs:2186-2215 | a race decided |
| `EngineAdvancer.Advancer.Arrived` | crates/rbpmn-core/src/step.rs:1490-1528 | the first token waiting at a join on a flow |
| `EngineAdvancer.Advancer.Gathered` | crates/rbpmn-core/src/step.rs:1490-1528 | one for each incoming flow, or none |
| `EngineAdvancer.Advancer.EnterJoin` | crates/rbpmn-core/src/step.rs:1477-1538 | the join of the specification |
| `EngineAdvancer.Advancer.EnterTask` | crates/rbpmn-core/src/step.rs:1237-1265 | the task of the specification |
| `EngineAdvancer.Advancer.EnterTimerCatch` | crates/rbpmn-core/src/step.rs:1266-1280 | the timer catch of the specification |
| `EngineAdvancer.Advancer.EnterMessageCatch` | crates/rbpmn-core/src/step.rs:1281-1297 | the message catch of the specification |
| `EngineAdvancer.Advancer.EnterEventGateway` | crates/rbpmn-core/src/step.rs:1298-1333 | the event gateway of the specification |
| `EngineAdvancer.Advancer.EnterSubProcess` | crates/rbpmn-core/src/step.rs:1334-1370 | the subprocess of the specification |
| `EngineAdvancer.Advancer.EnterExclusive` | crates/rbpmn-core/src/step.rs:1379-1406 | the exclusive gateway of the specification |
| `EngineAdvancer.Advancer.FirstCondition` | crates/rbpmn-core/src/step.rs:1379-1402 | the flow an exclusive gateway chooses |
| `EngineAdvancer.Advancer.Split` | crates/rbpmn-core/src/step.rs:1407-1421 | the fork of the specification |
| `EngineAdvancer.Advancer.EnterTerminateEnd` | crates/rbpmn-core/src/step.rs:1434-1448 | the terminate end of the specification |
| `EngineAdvancer.Advancer.Enter` | crates/rbpmn-core/src/step.rs:1198-1450 | entering a node does what the specification says, or is its error |
| `EngineAdvancer.Advancer.AskAgain` | crates/rbpmn-core/src/step.rs:1178-1192 | halted decisions are asked again |
| `EngineAdvancer.Advancer.Run` | crates/rbpmn-core/src/step.rs:1165-1196 | given so many moves, the loop ends within them exactly when the specification does, and leaves what it leaves, the instance at rest; if not, it has made exactly those moves |
| `EngineStep.Start` | crates/rbpmn-core/src/step.rs:575-598 | the command of the specification, in place |
| `EngineStep.CompleteWorkItem` | crates/rbpmn-core/src/step.rs:599-636 | the command of the specification, in place |
| `EngineStep.CompleteDecision` | crates/rbpmn-core/src/step.rs:637-718 | the command of the specification, in place |
| `EngineStep.Outward` | crates/rbpmn-core/src/step.rs:377-395 | the hosts an error meets, innermost first |
| `EngineStep.FindCatcher` | crates/rbpmn-core/src/step.rs:397-408 | the catching boundary of the specification |
| `EngineStep.RaiseError` | crates/rbpmn-core/src/step.rs:719-776 | the command of the specification, in place |
| `EngineStep.FireTimer` | crates/rbpmn-core/src/step.rs:932-1009 | the command of the specification, in place |
| `EngineStep.DeliverMessage` | crates/rbpmn-core/src/step.rs:1010-1124 | the command of the specification, in place |
| `EngineStep.CheckRepair` | crates/rbpmn-core/src/step.rs:786-842 | the refusals of the specification, in order, before anything changes |
| `EngineStep.QueueHalted` | crates/rbpmn-core/src/step.rs:906-930 | the collateral of the specification |
| `EngineStep.Dispose` | crates/rbpmn-core/src/step.rs:843-905 | the disposition of the specification |
| `EngineStep.Repair` | crates/rbpmn-core/src/step.rs:777-931 | the command of the specification, in place |
| `EngineStep.ReturnsWithFuel` | crates/rbpmn-core/src/step.rs:1165-1177 | a step returns if and only if some number of moves is enough for it, and then every greater number is |
| `EngineStep.TakeStep` | crates/rbpmn-core/src/step.rs:569-1124 | the step function, run in place: unless its queue outlasts the moves allowed, it answers and leaves exactly what the specification's step does; an error leaves the instance as it was |

## Left out

- Ledger.CyclesBounded: a cycle text with zero repeats counts as one occurrence, as the code arms it once.
- Lone.ReturnsExactlyWhenNoCycle: proved for processes without parallel gateways and subprocesses; a cycle through a join or a subprocess may wait in practice although `Running.NoWaitFreeCycle` does not allow it, and for such processes only one half is claimed, that the condition is enough.
- Ways.QuiescenceExactlyWhen: gateways that only a race or a boundary leads to are not among those it speaks of, since an arm may be impossible to make under every document; `Lone.SpinsExactlyWhenCycleIsComeTo` holds of them too, with reachability by runs.
- EngineAdvancer.Advancer.Run: takes a number of moves, since a method must end, and stops after them where the loop of the source goes on; `EngineStep.ReturnsWithFuel` says that for a step that returns some number is enough.
- EngineStep.TakeStep: answers `StillRunning` when its moves are spent, which the source never does; the instance is then where those moves left it.
- EngineStep.Start: answers `StillRunning` when its moves are spent, as `EngineStep.TakeStep` does.
- EngineStep.CompleteWorkItem: answers `StillRunning` when its moves are spent, as `EngineStep.TakeStep` does.
- EngineStep.CompleteDecision: answers `StillRunning` when its moves are spent, as `EngineStep.TakeStep` does.
- EngineStep.RaiseError: answers `StillRunning` when its moves are spent, as `EngineStep.TakeStep` does.
- EngineStep.FireTimer: answers `StillRunning` when its moves are spent, as `EngineStep.TakeStep` does.
- EngineStep.DeliverMessage: answers `StillRunning` when its moves are spent, as `EngineStep.TakeStep` does.
- EngineStep.Repair: answers `StillRunning` when its moves are spent, as `EngineStep.TakeStep` does.
- Json.MergePatch: returns the new document rather than rewriting a mutable member of the old one; Dafny values have no aliases.
- Stream.EveryInterleaving: one reader is watched, chosen arbitrarily, since readers leave nothing behind; the lease, the retention sweep's choice of instances and the SQL plan are not modelled, only what a deletion removes and how the floor moves.
- Element ids and flow ids are node and flow indices; the linter makes the two interchangeable.
- Conditions are functions of the document, and timer texts are strings with an uninterpreted validity test and number of repeats: the FEEL evaluator and the ISO-8601 parser are not modelled.
- Counters and ids are unbounded, where the code has 64-bit integers that overflow only after 2^64 mints; JSON numbers are integers or decimals, without floating point.
- Texts of messages, incident prose, `Display` strings and the serde shape of events and manifests.
- The BPMN parser and the linter's element, condition, gateway and boundary rules: what they guarantee is assumed as `Compiled.WellFormed`. Its rules about side paths, reachability and blocks are stated as what they accept; their searches and diagnostics are not modelled.
- `check.rs`, `decisions.rs`, `rehydrate`, retry policies, the decision engine, tasks, the scheduler, deployment, HTTP and listen.
- Instances frozen before repair existed may hold several causes: `Step` models the refusal they meet, the invariant has one.
