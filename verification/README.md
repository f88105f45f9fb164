# A model of the creative agent's engine

This project models, in Dafny, the part of the repository that turns a creative request into a
dependency graph of generation tasks and drives it to completion, together with the agent loop, the
two exactly-once protocols and the small text and log helpers around it. Every theorem is about the
model; `dafny verify dfyconfig.toml` checks all of them.

## How it is laid out

- **Graph engine.** `Collections`, `Graph` and `Canvas` hold sets, paths and canvas nodes. `TopoSort`,
  `Closure`, `UnionFind`, `StableSort` and `Layout` follow `dependency_graph.py`; `Scheduler` follows
  `dependency_scheduler.py`. Graphs are arbitrary: duplicate edges, self-loops, dangling ends and cycles.
- **Scheduler runs.** `SchedulerRun` is a state machine of submissions, tasks, notices, wakeups and clock jobs.
  Wakeups plan from a snapshot and may interleave, die and come again, or be recorded half done; looks at ended
  tasks may come late; failed nodes may be marked stale. `CalmRun` takes wakeups one at a time, follows a part of
  the canvas that is untouched at first and closed under inputs, and counts submissions; `RunLength` bounds runs,
  `RunEnd` says where they end. `Offers` and `WakeupsAtOnce` give exact conditions for nodes left behind and nodes
  submitted twice; `RunWitnesses` reaches states in which that happened.
- **Plans.** `Contract` holds the feed and role tables, `ShortDrama` the workflow planner and what executing
  its actions builds, `DramaRun` its graph on a canvas, `DramaEnd` the end-to-end theorem. `PlanSteps` and
  `PlanCompilers` do the same for step plans, `ChainLegality` for the links of a text chain.
- **Agent loop.** `AgentEvents` is the reducer, `EventGrammar` the order events may come in, `AgentCore` the
  queues and the agent object, `ToolCalls` and `ToolBatches` the execution of tool calls, `AgentTurns` a run
  as a list of turns, `AgentLoop`, `AgentRun` and `AgentEntry` the loop and its entry points. The world (model
  stream, tools, hooks, arrivals on the queues) is a script of arbitrary answers, one per turn.
- **Protocols.** `TerminalLease` and `ApprovalStore` interleave the atomic database steps of any number of
  workers; `ApprovalToken` holds the token, the hash and the checks, with hash and signature as parameters.
- **Helpers.** `BalancedJson` cuts a value out of text, `JsonReader` reads printed values back; `BoundedLog`.

## Where the code does something else than one would expect

- `walk_input_upstream` says near-to-far; the code lists sources before consumers (`Closure.ChainStartsFar`).
  Without a cycle behind the target and with all its ancestors on the canvas the stated order holds exactly when
  every ancestor feeds the target directly (`Closure.NearToFarIffDirect`); on other canvases
  `Closure.NearToFarIffNearerIsBehind` says when it is bound to hold.
- The upstream walk follows input edges with an unset end, the downstream walk does not; the two closures are
  converse exactly when no input edge has an unset end (`Closure.ClosuresAreConverse`).
- A task that ends in `settlement_error` marks its node ready, but its wakeup plans no submissions, so children
  that became enabled by it stay unsubmitted (`RunWitnesses.SettlementErrorStrands`).
- An error inside a wakeup, such as a status request that times out, is swallowed, and the notice is recorded as
  processed all the same: what the wakeup had not submitted stays unsubmitted, and no delivery wakes the agent
  for that event again (`RunWitnesses.DroppedWakeupStrands`, `TerminalLease.GraphFailureIsFinal`). Only an error
  that escapes the wakeup opens the event again (`TerminalLease.EscapedErrorReopens`).
- With wakeups one at a time, and if none of them dies, a node with inputs is left behind exactly when no notice or
  clock job of a settled success of an input came up with all its inputs ready
  (`Offers.LeftBehindIffNeverOffered`).
- The clock job of a submission wakes the agent a second time and takes no lease, so it may run beside the wakeup
  of the terminal event. Two wakeups under way together submit a node twice exactly when both tasks are settled and
  their nodes share an enabled child (`WakeupsAtOnce.WakeupsAtOnceResubmitIff`,
  `RunWitnesses.ConcurrentWakeupsResubmit`).
- Each look at an ended task, by its wakeup and by its clock jobs, writes the task's status over whatever the node
  has by then. A cancelled or expired task opens its node again with each look, and the next wakeup of an input
  submits it again, even while another task of it runs, and even with wakeups one at a time: one cancelled task
  may lead to three submissions (`RunWitnesses.CancelledIsResubmitted`, `RunWitnesses.LateLookResubmits`). A node
  that is ready by then is written back too, after its children were submitted (`RunWitnesses.LateLookUndoes`).
- A look at a success writes the output again, and the canvas service then marks failed nodes downstream as stale
  (CanvasService.java:823-843). So a failed node is submitted again by a later wakeup of an input, without anyone
  asking for it (`RunWitnesses.FailedIsResubmitted`).
- So "at most once" holds up to the times a node is written back to an open status
  (`CalmRun.SubmittedOnceInOrder`), the exact count is `Offers.SubmissionsAreOpenings`, and every further success
  is charged (`DramaEnd.ShortDramaCompletes`). As long as every task of a node has a
  result, it is submitted at most once.
- The lease runs from the clock reading made before the row lock is obtained. A wakeup that outlasts it lets a
  second one in, exactly then (`TerminalLease.SecondWakesIffOverrun`).
- The conflict answer of the terminal-event consumer can never be given (`TerminalLease.ConflictNeverAnswered`).
- A canvas whose current version reads as zero is not compared with the approved version
  (`ApprovalToken.IssuedPasses`).
- An accepted approval was unexpired when it was checked; the conditional update does not look at the expiry
  again (`ApprovalStore.GrantMeansBound`).
- A model stream that starts over leaves the abandoned partial message in the loop's context, though not in the
  transcript (`AgentTurns.ContextAgreesWithTranscript`), and breaks the event order (`AgentTurns.EventOrder`).
- The chain cost in the compiled short-drama plan leaves the character card out, so what a run charges is more than
  announced when there is one (`DramaEnd.CompiledChargeIsAnnounced`).
- With a single shot the compose node cannot run, and the announced cost includes it all the same
  (`DramaEnd.PlannedChargeIsAnnounced`).
- The text-chain compiler joins kinds in label order whatever the connection check says: a chain passes it exactly
  when each neighbouring pair is listed in `ChainLegality.LEGAL_LINKS`. The role table would let a voice-over into
  a composite, the type table does not.
- A bound of zero in the list reducer would not bound (`BoundedLog.ZeroKeepsAll`).

## Model

| member | source | states |
|---|---|---|
| `TopoSort.CountInputs` | agent-service/src/agent/domain/dependency_graph.py:55-62 | in-degrees count input edges with their multiplicity; adjacency keeps edge order |
| `TopoSort.Drain` | agent-service/src/agent/domain/dependency_graph.py:63-71 | the queue phase emits ids without repetition, sources first, and every id left over is fed by another one left over |
| `TopoSort.EmittedAreGrounded` | agent-service/src/agent/domain/dependency_graph.py:63-71 | what the queue phase emits is exactly the ids with no cycle among their ancestors |
| `TopoSort.AppendRest` | agent-service/src/agent/domain/dependency_graph.py:72-75 | the leftovers are appended after the emitted ids, each once |
| `TopoSort.TopoSortExecutable` | agent-service/src/agent/domain/dependency_graph.py:53-76 | the result is a permutation of the requested id set; the ids with no cycle behind them come first, each after all its sources in the induced input graph |
| `TopoSort.AcyclicOrderPointsForward` | agent-service/src/agent/domain/dependency_graph.py:53-76 | on an acyclic graph every input edge points forward in the order |
| `Graph.CycleAmongAncestors` | agent-service/src/agent/domain/dependency_graph.py:72-75 | a set of ids each fed from within the set has a cycle among the ancestors of every one of them |
| `Closure.GroupByTarget` | agent-service/src/agent/domain/dependency_graph.py:31-35 | sources grouped under their target are exactly the input arcs |
| `Closure.UpstreamWalk.Dfs` | agent-service/src/agent/domain/dependency_graph.py:40-47 | the depth-first search keeps its state: everything seen and closed has all its ancestors listed once, and acyclic parts are listed sources first |
| `Closure.WalkInputUpstream` | agent-service/src/agent/domain/dependency_graph.py:29-50 | returns each known node with a nonempty input path to the target exactly once; a node with no cycle behind it comes after all its known ancestors |
| `Closure.NearToFarIffDirect` | agent-service/src/agent/domain/dependency_graph.py:29-50 | the near-to-far order the docstring states holds, for a target with no cycle behind it and all ancestors on the canvas, if and only if every ancestor feeds the target directly |
| `Closure.NearToFarIffNearerIsBehind` | agent-service/src/agent/domain/dependency_graph.py:29-50 | on any canvas, cycles and missing ancestors included: every order the walk may list is near-to-far if and only if every listed ancestor that is nearer to the target than another is itself behind that one, with no cycle behind it |
| `Closure.ChainStartsFar` | agent-service/src/agent/domain/dependency_graph.py:29-50 | a witness: on a two-edge chain the far node comes before the near one |
| `Closure.GroupBySource` | agent-service/src/agent/domain/dependency_scheduler.py:202-207 | targets grouped under their source are the input arcs whose two ends are set |
| `Closure.VisitDownstream` | agent-service/src/agent/domain/dependency_scheduler.py:208-215 | the stack walk sees exactly the ids reachable by a nonempty input path |
| `Closure.SumPending` | agent-service/src/agent/domain/dependency_scheduler.py:216-221 | the total adds the price of each submittable node of the set once |
| `Closure.EstimateDownstreamCost` | agent-service/src/agent/domain/dependency_scheduler.py:190-221 | the estimate is the sum over the downstream closure, each node still to be submitted counted once at 8, 10 or 30 by role and type, all others at 0, diamonds and cycles included |
| `Closure.ClosuresAreConverse` | agent-service/src/agent/domain/dependency_scheduler.py:203-215 | x is downstream of y exactly when y is upstream of x, if and only if no input edge has an unset end (the downstream walk drops those, the upstream walk does not) |
| `UnionFind.HalvingKeepsForest` | agent-service/src/agent/domain/dependency_graph.py:153-157 | path halving keeps every root and moves strictly closer to it |
| `UnionFind.Forest.Find` | agent-service/src/agent/domain/dependency_graph.py:153-157 | terminates and returns the root of the argument, changing no root |
| `UnionFind.Forest.Union` | agent-service/src/agent/domain/dependency_graph.py:159-162 | merges the two classes and no others |
| `UnionFind.Merge` | agent-service/src/agent/domain/dependency_graph.py:159-162 | a labelling of connected components stays one when an edge is added and the two labels merged |
| `UnionFind.BuildForest` | agent-service/src/agent/domain/dependency_graph.py:150-167 | two known nodes have the same root exactly when edges of any kind connect them |
| `Layout.CollectUpstream` | agent-service/src/agent/domain/dependency_graph.py:137-141 | the sources of a node are its known input sources other than itself |
| `Layout.AssignLayers` | agent-service/src/agent/domain/dependency_graph.py:143-148 | on ids with no cycle behind them the layer is the length of the longest input path; every layer above 0 is one above a source |
| `Layout.GroupComponents` | agent-service/src/agent/domain/dependency_graph.py:169-171 | nodes are grouped by root |
| `Layout.SortComponents` | agent-service/src/agent/domain/dependency_graph.py:173-181 | components are taken in the order of the smallest y, then the smallest x, of their members, then as they come in the node list |
| `Layout.PlaceComponent` | agent-service/src/agent/domain/dependency_graph.py:181-199 | a component fills its columns row by row without gaps, each column in the order of its keys, ties in the order of the node list; members of cycles included |
| `Layout.StackComponents` | agent-service/src/agent/domain/dependency_graph.py:179-200 | components are stacked in order, each band starting where the last one and the gap end |
| `Layout.ArrangedNoOverlap` | agent-service/src/agent/domain/dependency_graph.py:196-199 | no two nodes closer than a column in x are closer than a row in y |
| `Layout.ArrangedOwnBands` | agent-service/src/agent/domain/dependency_graph.py:196-199 | of two components one ends at least a row and the gap above the start of the other |
| `Layout.ArrangedPacked` | agent-service/src/agent/domain/dependency_graph.py:196-199 | no room is wasted: a node is at the top margin, or directly below one of its column, or a gap below another component |
| `Layout.ComputeDependencyLayout` | agent-service/src/agent/domain/dependency_graph.py:115-200 | every known node gets a position; columns, bands and packing are as above; within a column nodes stand by the sum of the y of their sources in earlier columns over the number of those edges, or by canvas y without any, then by canvas y, then as they come in the node list; components keep their reading order, by least y, then least x, then first entry |
| `Layout.GroundedUps` | agent-service/src/agent/domain/dependency_graph.py:188-194 | with no cycle behind a node the mean is over all its input edges from known nodes: all of them come from earlier columns |
| `Layout.OneSourceEach` | agent-service/src/agent/domain/dependency_graph.py:188-195 | two nodes of one column of a component with one source each in earlier columns stand in the order of their sources, so their edges do not cross |
| `Scheduler.InputSourceIds` | agent-service/src/agent/domain/dependency_scheduler.py:41-50 | the set input sources of a node, in edge order and with multiplicity |
| `Scheduler.AllInputsReady` | agent-service/src/agent/domain/dependency_scheduler.py:53-59 | true exactly when every input source is on the canvas and ready |
| `Scheduler.ChildrenOf` | agent-service/src/agent/domain/dependency_scheduler.py:76-81 | the direct input children of the completed node |
| `Scheduler.Candidates` | agent-service/src/agent/domain/dependency_scheduler.py:83-95 | the entries that are submittable, have all inputs ready (two at least for compose), and, when asked, are children of the completed node |
| `Scheduler.FindSubmittableNodes` | agent-service/src/agent/domain/dependency_scheduler.py:62-102 | exactly the offered ids, each once, in topological order: ids with an entry that is idle, stale or of an unknown status, of a type that can run, whose every input source is on the canvas with a result, a compose node having two such edges, and that is a direct child when a completed node is named |
| `Scheduler.OfferedMeans` | agent-service/src/agent/domain/dependency_scheduler.py:24-59 | the predicates the run model is built on, offered, submittable and ready, written out over statuses, types and edges |
| `Scheduler.PlanDownstreamSubmits` | agent-service/src/agent/domain/dependency_scheduler.py:107-187 | one submission for each offered id that its last entry still allows: compose nodes to the composer at 15, any other to the generator with the model of its role, or of its own type without one, at 8, 10, or the video price |
| `Scheduler.BatchIsIndependent` | agent-service/src/agent/domain/dependency_scheduler.py:83-102 | no two nodes of a submitted batch are joined by an input edge |
| `SchedulerRun.PlanWakeup` | agent-service/src/agent/domain/dependency_scheduler.py:173-187 | the plan of a wakeup is the set of enabled direct children, each once; a canvas that lists an id twice may add exactly the compose nodes short of inputs whose other entry is no compose node |
| `SchedulerRun.SubmissionWrites` | agent-service/src/agent/tools/registry.py:933-948 | an accepted submission marks its node queued and nothing else; when the task ends its node becomes succeeded, failed, cancelled or expired |
| `SchedulerRun.LookWrites` | agent-service/src/agent/tools/registry.py:951-1045 | a look at a task writes ready for a result, settled or not, failed, idle for a cancelled task, expired, or running |
| `SchedulerRun.StepKeepsWakeups` | agent-service/src/agent/domain/dependency_scheduler.py:62-102 | each event, late looks at ended tasks and stale marks included, keeps: an enabled node with inputs has a due notice of a success among its inputs or is in the plan of a wakeup under way, unless its own submission went wrong or was taken back, the wakeup that planned it was recorded without submitting it, or an input ended in settlement_error |
| `SchedulerRun.RunKeepsWakeups` | agent-service/src/agent/domain/dependency_scheduler.py:62-102 | the same in every state of every run, wakeups interleaved in any way |
| `SchedulerRun.DropKeeps` | agent-service/src/agent/graph/app.py:274-280 | an error inside a wakeup is swallowed and its notice recorded: an enabled node loses its wakeup only if this one had planned it and nobody has touched it, and is then missed |
| `SchedulerRun.ChildScansSuffice` | agent-service/src/agent/domain/dependency_scheduler.py:173-187 | between wakeups, with nothing halted, missed or unsettled, the scans limited to children of the completed nodes find exactly what a full rescan would |
| `CalmRun.CalmStepKeepsCalm` | agent-service/src/agent/tools/registry.py:951-1045 | with wakeups one at a time every event, crashes, timed-out clock jobs, late looks and stale marks included, keeps on every node followed: it was submitted at most once more often than it was written back to an open status, what is planned or submitted has inputs that were ready, and every status is owed to a task of the node |
| `CalmRun.SubmittedOnceInOrder` | agent-service/src/agent/tools/registry.py:1018-1027 | each node is submitted after all its inputs, and at most once more often than it was written back; so at most once unless a task of it failed, was cancelled or expired, and its inputs stay ready unless that happened to them |
| `RunLength.CalmRunIsShort` | agent-service/src/agent/domain/dependency_scheduler.py:173-187 | every run ends: it has at most n(2n+6) events on n nodes, 2n+7 more for every write that opens a node again, and n+3 more for every wakeup that died, clock job that timed out, or look at a running task |
| `RunEnd.OverIsQuiet` | agent-service/src/agent/domain/dependency_scheduler.py:173-187 | when nothing more can happen by itself no task is in flight, no notice is due, and no wakeup or clock job is open |
| `RunEnd.ReadyIffViable` | agent-service/src/agent/domain/dependency_scheduler.py:83-95 | at the end a node and all its ancestors are ready exactly when all of them can run, none halted or missed, none on a cycle, and the roots among them were submitted; if no ancestor was written back, exactly then the node is ready |
| `RunEnd.AllReadyInTheEnd` | agent-service/src/agent/domain/dependency_scheduler.py:62-102 | on an acyclic part of runnable nodes every run that ends with nothing halted, missed or unsettled ends with all nodes ready, each submitted once unless a task of it ended without a result |
| `Offers.TakenUpIffOffered` | agent-service/src/agent/domain/dependency_scheduler.py:173-187 | at any time of a calm run a node with inputs has been taken up (submitted, turned down, missed or planned) only if a notice or clock job of a success of an input came up while all its inputs were ready, and exactly then if no wakeup that had planned it died |
| `Offers.LeftBehindIffNeverOffered` | agent-service/src/agent/graph/nodes/check_task_status_node.py:201-228 | when the run is over a runnable node with inputs is left behind, neither submitted nor turned down nor missed, if no such notice or clock job came up, and only then if no wakeup that had planned it died |
| `Offers.LeftBehindIsUnsettled` | agent-service/src/agent/graph/nodes/check_task_status_node.py:223-228 | left behind while enabled means that an input ended in settlement_error |
| `Offers.SubmissionsAreOpenings` | agent-service/src/agent/domain/dependency_scheduler.py:173-187 | the exact count: a node with inputs is submitted as often as a wakeup of a success of an input begins while all its inputs are ready and its own status allows it, less the times a wakeup gave it up and the one yet to submit it |
| `Offers.ResubmittedIffOffered` | agent-service/src/agent/tools/registry.py:1018-1027 | between two states in which no wakeup holds it and if none gives it up, a node with inputs is submitted again if and only if such a wakeup begins |
| `Offers.OpenAgainWasLost` | agent-service/src/agent/tools/registry.py:1018-1027 | a submitted node allows a submission again only if a task of it failed, was cancelled or expired |
| `WakeupsAtOnce.SecondWakeupResubmitsIff` | agent-service/src/agent/domain/dependency_scheduler.py:173-187 | a wakeup that begins while another is under way leads to a second submission, in any order of the two, if and only if its task is settled and its node feeds an enabled one the other has yet to submit |
| `WakeupsAtOnce.WakeupsAtOnceResubmitIff` | agent-service/src/agent/domain/dependency_scheduler.py:173-187 | two wakeups begun at once submit a node twice if and only if both tasks are settled and their nodes share a child that is enabled when each has looked |
| `RunWitnesses.SettlementErrorStrands` | agent-service/src/agent/graph/nodes/check_task_status_node.py:223-228 | a run in which a node ends in settlement_error leaves its enabled child unsubmitted, although the node is marked ready |
| `RunWitnesses.DroppedWakeupStrands` | agent-service/src/agent/graph/app.py:274-280 | a run in which the error of a wakeup is swallowed leaves an enabled child unsubmitted, every task settled and nothing turned down |
| `RunWitnesses.ConcurrentWakeupsResubmit` | agent-service/src/agent/domain/dependency_scheduler.py:173-187 | a witness: from a state a calm run reaches, two wakeups that plan at the same time submit a shared child twice |
| `RunWitnesses.CancelledIsResubmitted` | agent-service/src/agent/tools/registry.py:1018-1027 | a witness: with wakeups one at a time, a child whose task is cancelled is submitted again by the wakeup of another input |
| `RunWitnesses.FailedIsResubmitted` | vibepaper-services/canvas-service/src/main/java/com/vibepaper/canvas/service/CanvasService.java:823-843 | a witness: a child whose task failed is marked stale when the output of another input is written again, and submitted again by that wakeup |
| `RunWitnesses.LateLookResubmits` | agent-service/src/agent/tools/registry.py:1018-1027 | a witness: the wakeup of the cancelled task then opens the node while its second task runs, and a third is submitted |
| `RunWitnesses.LateLookUndoes` | agent-service/src/agent/tools/registry.py:1018-1027 | a witness: the wakeup of a cancelled task writes idle over a node that is ready by then and whose child is in flight |
| `Contract.UpstreamRoles` | agent-service/src/agent/domain/creative_contract.py:43-68 | the roles feeding a node are those of its known input sources |
| `Contract.ConnectionRefusedIff` | agent-service/src/agent/domain/creative_contract.py:103-129 | an input edge is refused exactly when its two types are not among the fourteen pairs listed, or when the target has one of seven roles, the source another one or none, and the two roles are not among the thirteen pairs listed |
| `Contract.GenerationRefusedIff` | agent-service/src/agent/domain/creative_contract.py:71-100 | for every role, type, model and set of roles above: which of the four complaints is made, and when none is |
| `ShortDrama.PlanShortDrama` | agent-service/src/agent/domain/workflow_orchestrator.py:247-444 | for every shot count, with or without character card, the actions build exactly the intended graph, every reference points back at a created node, all nodes are laid out, and the one submission, the script to the text model at 8, carries the cost of the chain |
| `ShortDrama.EdgesAreArrows` | agent-service/src/agent/domain/workflow_orchestrator.py:301-408 | the edges listed by the planner are the intended ones, each once |
| `DramaRun.EveryEdgeIsLegal` | agent-service/src/agent/domain/creative_contract.py:103-129 | every edge of the built graph passes the type table and the role table |
| `DramaRun.EveryNodeMayGenerate` | agent-service/src/agent/domain/creative_contract.py:71-100 | every node of the built graph passes the generation check with the roles it is fed by |
| `DramaRun.EveryNodeAsksItsOwnModel` | agent-service/src/agent/domain/dependency_scheduler.py:107-170 | every node of the built graph is submitted as what it is: texts, images and videos to the model of their type, the composite to the composer, each at its price |
| `DramaRun.ScriptIsTheRoot` | agent-service/src/agent/domain/workflow_orchestrator.py:432-444 | the script is the only node without inputs |
| `DramaRun.DramaIsAcyclic` | agent-service/src/agent/domain/workflow_orchestrator.py:301-408 | the built graph has no cycle |
| `DramaRun.DramaIsRunnable` | agent-service/src/agent/domain/workflow_orchestrator.py:390-408 | every node can run, except that compose needs two shots |
| `DramaEnd.OthersLeaveIt` | agent-service/src/agent/domain/workflow_orchestrator.py:247-444 | a canvas may hold any other nodes and edges besides the drama, as long as none of them feeds it |
| `DramaEnd.ShortDramaCompletes` | agent-service/src/agent/domain/workflow_orchestrator.py:247-444 | end to end, however the graph was drawn and whatever else the canvas holds: once the script is submitted a run that ends well makes all nodes of the drama ready (all but compose for a single shot), and submits exactly these, the script first; the successes, which alone are charged, are one for each and further ones only for nodes that had a task fail, cancelled or expired |
| `DramaEnd.PlannedChargeIsAnnounced` | agent-service/src/agent/domain/workflow_orchestrator.py:432-444 | for a planned drama the charge is the announced cost, at the price it was planned with, if and only if what is charged twice makes up for the compose node of a single shot; if every task has a result, if and only if there are two shots or more |
| `DramaEnd.CompiledChargeIsAnnounced` | agent-service/src/agent/domain/creative_planner.py:290-507 | for a compiled drama it differs from the announced cost, at the default video price, by the character card, the compose node of a single shot and what is charged twice; if every task has a result it is the announced cost if and only if there are two shots or more and no character card |
| `PlanCompilers.CompileShortDrama` | agent-service/src/agent/domain/creative_planner.py:290-507 | the compiled plan draws the same graph as the workflow planner, or only its text base, and submits the script at 8, at 5 when it stops there, or not at all; its chain cost is that of a drama without character card whether there is one or not |
| `PlanCompilers.CompileKeyframes` | agent-service/src/agent/domain/creative_planner.py:372-415 | one first frame a shot, each fed by the storyboard and the character card, in steps that depend on earlier ones |
| `PlanCompilers.CompileClips` | agent-service/src/agent/domain/creative_planner.py:417-450 | one clip a shot, fed by its first frame, after all first frames are connected |
| `PlanCompilers.CompileCompose` | agent-service/src/agent/domain/creative_planner.py:452-488 | one composite fed by every clip, then the layout |
| `PlanCompilers.ConnectSelection` | agent-service/src/agent/domain/creative_planner.py:581-615 | one step feeding the selected nodes into the target, or none |
| `PlanCompilers.CompileSimpleVisual` | agent-service/src/agent/domain/creative_planner.py:645-757 | every image is created once, fed by the selected nodes and submitted once to the image model at 8; a triptych is tied left to right by references, so none waits for another |
| `PlanCompilers.KindsAreDistinct` | agent-service/src/agent/domain/creative_planner.py:814-835 | the kinds are those of the labels, each once, in the order in which they first occur |
| `PlanCompilers.CompileTextChain` | agent-service/src/agent/domain/creative_planner.py:797-933 | distinct kinds, each feeding the next, laid out; the selected nodes feed the first image, or the first node without one, which is then the one submitted, else the first node is: a text at 5, an image at 8, an audio at 10, nothing else |
| `ChainLegality.ChainIsLegalIff` | agent-service/src/agent/domain/creative_contract.py:103-129 | every connection of the compiled chain passes the connection check if and only if each neighbouring pair of kinds is one of twelve listed |
| `PlanCompilers.CompiledPlanCompletes` | agent-service/src/agent/domain/plan_models.py:193-236 | every compiled plan: a next step exists until all are marked, and it is complete after exactly as many marks as it has steps |
| `PlanSteps.ReadyOneByOne` | agent-service/src/agent/domain/plan_models.py:193-200 | the ready steps are those still planned whose every dependency names a step, the last with that id, that has succeeded; in plan order |
| `PlanSteps.SomethingIsReady` | agent-service/src/agent/domain/plan_models.py:193-200 | while some step is planned and the rest succeeded, some step is ready |
| `PlanSteps.MarkStep` | agent-service/src/agent/domain/plan_models.py:203-223 | marks the step with the id and no other |
| `PlanSteps.IsTaskComplete` | agent-service/src/agent/domain/plan_models.py:226-236 | complete exactly when there is a plan, nothing is pending, and every step succeeded or was cancelled or skipped |
| `PlanSteps.CompleteInExactlyAllMarks` | agent-service/src/agent/domain/plan_models.py:193-236 | however ready steps are picked, completion comes with the last mark and not before |
| `PlanSteps.HandsOverOneByOne` | agent-service/src/agent/domain/creative_planner.py:1301-1318 | steps hand over their actions one by one, in plan order: none when succeeded, skipped or cancelled, or without an action |
| `PlanSteps.StepsToPlannedActions` | agent-service/src/agent/domain/creative_planner.py:1301-1318 | the loop hands over exactly that list |
| `PlanSteps.FlattenedIsTopological` | agent-service/src/agent/domain/creative_planner.py:1301-1318 | no action comes before one its step depends on |
| `AgentEvents.TranscriptIsEnded` | pi-main/packages/agent/src/agent.ts:544-571 | the reducer appends exactly the messages that ended, in order |
| `AgentEvents.StreamingIsLatest` | pi-main/packages/agent/src/agent.ts:544-571 | the message being streamed is that of the last start or update, and none once a message or the run has ended since |
| `AgentEvents.ErrorIsLatest` | pi-main/packages/agent/src/agent.ts:559-571 | the error message is that of the last turn_end that carries a nonempty one |
| `AgentEvents.PendingIsLatest` | pi-main/packages/agent/src/agent.ts:559-571 | a tool call is pending exactly when the last event of its id is a start |
| `AgentEvents.PairedLeavesNonePending` | pi-main/packages/agent/src/agent.ts:559-571 | after a trace in which every start has its end no tool call is pending |
| `AgentEvents.StartHasOneEnd` | pi-main/packages/agent/src/agent-loop.ts:433-554 | for an id used once, a paired trace has exactly one end for the start, later than it |
| `AgentCore.PendingMessageQueue.Enqueue` | pi-main/packages/agent/src/agent.ts:133-135 | appends; what came in is what was handed out followed by what waits |
| `AgentCore.PendingMessageQueue.Drain` | pi-main/packages/agent/src/agent.ts:141-154 | hands out all messages or the first one, by mode, and keeps the rest in order |
| `AgentCore.Agent.ProcessEvent` | pi-main/packages/agent/src/agent.ts:544-582 | keeps the state equal to the reduction of the events delivered since the run began |
| `AgentCore.Agent.Begin` | pi-main/packages/agent/src/agent.ts:486-500 | starts a run with the transcript kept, the stream and the error cleared |
| `AgentCore.Agent.Finish` | pi-main/packages/agent/src/agent.ts:529-535 | ends a run with nothing streaming and nothing pending |
| `EventGrammar.KeepsGrammarIff` | pi-main/packages/agent/src/agent-loop.ts:109-275 | the recognizer accepts exactly the traces that end with agent_end and in which every event may stand where it does, stated by what precedes it: agent_start in front, turns after it or each other, one message at a time, only tool results after the reply, updates inside a message of the model, tool events and turn_end after the reply |
| `EventGrammar.StreamEndsReply` | pi-main/packages/agent/src/agent-loop.ts:314-371 | a streamed reply ends exactly one message, the reply |
| `EventGrammar.StreamIsOneReply` | pi-main/packages/agent/src/agent-loop.ts:314-371 | it is one start, updates and one end, exactly when it comes first in its turn and the stream does not start over |
| `EventGrammar.OneEntryIffOneOpening` | pi-main/packages/agent/src/agent-loop.ts:318-372 | it adds exactly the reply to the context if and only if the stream does not start over |
| `ToolCalls.Taken` | pi-main/packages/agent/src/agent-loop.ts:478-480 | all calls are taken up unless an abort is seen; then the prefix up to it |
| `ToolCalls.OutcomeMeans` | pi-main/packages/agent/src/agent-loop.ts:600-757 | a call is held back when its tool is missing, its arguments are bad, the hook throws, an abort is seen or the hook blocks, with the error text of the first of these, whatever executing it would have given; otherwise its outcome is that of the execution, as the after-hook changed it |
| `ToolCalls.BatchMeans` | pi-main/packages/agent/src/agent-loop.ts:433-584 | each call taken up is answered by its own outcome under its own id and name; the batch ends the run only if it is not empty and every outcome says so |
| `ToolCalls.RefusalsMean` | pi-main/packages/agent/src/agent-loop.ts:381-406 | what a call of a cut-off message is answered |
| `ToolCalls.ExecuteSequential` | pi-main/packages/agent/src/agent-loop.ts:433-487 | results answer the calls in call order; the trace is, call by call, the start, the updates only if the call is executed, the end and the result; every start has its end |
| `ToolBatches.Move` | pi-main/packages/agent/src/agent-loop.ts:522-534 | whichever executing call moves, calls in flight are exactly those still executing |
| `ToolBatches.ExecuteParallel` | pi-main/packages/agent/src/agent-loop.ts:489-554 | for every completion order: the same results and the same decision as one call after another, all tool events before all results, and updates only of calls that are executed |
| `ToolBatches.RefuseAll` | pi-main/packages/agent/src/agent-loop.ts:381-406 | a message cut off by the token limit has every call failed and the run goes on; each start is followed at once by its end, so none is executed |
| `AgentLoop.StreamAssistantResponse` | pi-main/packages/agent/src/agent-loop.ts:281-372 | shows the partial messages and leaves the reply in the context |
| `AgentLoop.ExecuteToolCalls` | pi-main/packages/agent/src/agent-loop.ts:205-222 | no batch for no calls, refusal for a cut-off message, else sequential or parallel execution, with the results and the trace these promise |
| `AgentLoop.ApplyOps` | pi-main/packages/agent/src/agent.ts:283-290 | steer and followUp calls reach their own queue in order |
| `AgentRun.TakeTurn` | pi-main/packages/agent/src/agent-loop.ts:175-224 | one turn injects what is pending, streams the reply, runs its tools, and records exactly that |
| `AgentRun.AfterTurn` | pi-main/packages/agent/src/agent-loop.ts:226-268 | nothing is polled after a failure or a stop; follow-ups are polled only when no tool call is open and the steering poll is empty |
| `AgentRun.RunLoop` | pi-main/packages/agent/src/agent-loop.ts:155-275 | every run is a chain of turns, each starting from what the polls before it brought; agent_end is emitted once, at its end |
| `AgentTurns.NextTurnInjectsPolled` | pi-main/packages/agent/src/agent-loop.ts:166-268 | a turn is followed by another exactly when it was neither failed nor stopped and left tool results, steering messages or follow-ups; the next turn injects the steering messages, or else the follow-ups |
| `AgentTurns.FollowUpsWait` | pi-main/packages/agent/src/agent-loop.ts:259-268 | a follow-up is injected only after a turn with no open tool call and an empty steering poll |
| `AgentTurns.TranscriptRefinement` | pi-main/packages/agent/src/agent.ts:544-582 | the transcript is the one before the run followed by the messages agent_end carries, on every stop path |
| `AgentTurns.NonePendingBetweenTurns` | pi-main/packages/agent/src/agent.ts:559-571 | no tool call is pending at any turn_end |
| `AgentTurns.EventOrder` | pi-main/packages/agent/src/agent-loop.ts:109-275 | the trace keeps the event grammar if and only if no assistant message was injected and no stream started over |
| `AgentTurns.ContextAgreesWithTranscript` | pi-main/packages/agent/src/agent-loop.ts:318-372 | if the caller replaces no context, the loop context agrees with the transcript exactly when no stream started over |
| `AgentTurns.NothingDrainedIsLost` | pi-main/packages/agent/src/agent-loop.ts:166-274 | at every end of a run, all that the queues handed out was injected, in order |
| `AgentEntry.Lifecycle` | pi-main/packages/agent/src/agent.ts:409-509 | a finished run: transcript, events, context and queues are as the turns say, and the agent is idle again |
| `AgentEntry.Prompt` | pi-main/packages/agent/src/agent.ts:347-358 | refused exactly while a run is going on; otherwise a run with these prompts |
| `AgentEntry.TakeQueued` | pi-main/packages/agent/src/agent.ts:371-382 | queued steering becomes the prompts, else queued follow-ups |
| `AgentEntry.Continue` | pi-main/packages/agent/src/agent.ts:361-388 | refused exactly when running, empty, or the model spoke last and nothing is queued; messages taken as prompts count as delivered |
| `TerminalLease.StepStaysSafe` | agent-service/src/agent/services/resume_service.py:49-145 | while every wakeup is within its lease, no step lets a second one in for the same event |
| `TerminalLease.LeaseIsExclusive` | agent-service/src/agent/services/resume_service.py:49-145 | over every run of deliveries, failures and crashes within leases: one wakeup of an event at a time, one recorded as processed |
| `TerminalLease.ProcessedIsFinal` | agent-service/src/agent/services/resume_service.py:93-94 | once an event is marked processed no delivery starts to wake for it again, leases overrun or not |
| `TerminalLease.ConflictNeverAnswered` | agent-service/src/agent/services/resume_service.py:76-91 | the conflict answer after a lost insert is never given, leases overrun or not |
| `TerminalLease.DeliveryIsAnswered` | agent-service/src/agent/services/resume_service.py:49-145 | no delivery is ever stuck: from any state of it, left to itself, it is answered after at most five steps |
| `TerminalLease.AnswerIsFinal` | agent-service/src/agent/services/resume_service.py:49-145 | and what it was answered stays so |
| `TerminalLease.AttemptWakesIffOpen` | agent-service/src/agent/services/resume_service.py:49-108 | a new delivery that runs undisturbed is answered a duplicate if the event was processed, in progress if its lease was taken less than 300 seconds ago, and otherwise takes the lease as of now and wakes the agent |
| `TerminalLease.EscapedErrorReopens` | agent-service/src/agent/services/resume_service.py:125-138 | a wakeup that ends opens the event at once exactly when an error escaped it, not when its graph failed, and marks it processed otherwise; a crash opens it exactly 300 seconds after the lease was taken |
| `TerminalLease.GraphFailureIsFinal` | agent-service/src/agent/graph/app.py:274-280 | after a wakeup whose graph failed no delivery ever wakes the agent for the event again |
| `TerminalLease.SecondWakesIffOverrun` | agent-service/src/agent/services/resume_service.py:95-108 | while one wakeup runs a second gets in exactly when the first took its lease 300 seconds ago or more, and both can then be recorded |
| `TerminalLease.NoticeTable.ClaimLease` | agent-service/src/agent/services/resume_service.py:93-108 | the transaction under the row lock: duplicate, in progress, or the lease taken |
| `TerminalLease.NoticeTable.LookUp` | agent-service/src/agent/services/resume_service.py:49-60 | the locked query, then the claim, or an insert to come |
| `TerminalLease.NoticeTable.InsertNotice` | agent-service/src/agent/services/resume_service.py:61-79 | one insert of the same key succeeds and takes the lease |
| `TerminalLease.NoticeTable.LookUpAgain` | agent-service/src/agent/services/resume_service.py:80-91 | the second look after a lost insert |
| `TerminalLease.NoticeTable.RecordWakeup` | agent-service/src/agent/services/resume_service.py:125-138 | the lease is cleared on failure, the notice marked processed on success |
| `ApprovalToken.TokenRoundTrip` | agent-service/src/agent/domain/approval.py:85-98 | splitting undoes building exactly for a nonempty nonce without dots, a nonempty signature and no space at either end |
| `ApprovalToken.SplitMeans` | agent-service/src/agent/domain/approval.py:91-98 | what splitting returns, for any token: once spaces are dropped from both ends, the parts before and after the first dot, neither empty; and it refuses only when there are no such parts |
| `ApprovalToken.NormalizeForgetsTransient` | agent-service/src/agent/domain/approval.py:21-26 | two parameter sets normalize alike exactly when they agree outside the four transient keys |
| `ApprovalToken.PassesIffBoundAndUnused` | agent-service/src/agent/services/approval_service.py:142-166 | the checks pass exactly when the user, the session, the signature and the plan version are the approval's, the canvas too when both name one, the canvas version unless it reads as zero, and the hash when one is given, before the expiry, and if it was neither consumed nor rejected |
| `ApprovalToken.RefusedWith` | agent-service/src/agent/services/approval_service.py:142-166 | which refusal is given: another user, session or canvas is denied permission before anything else; then a forged signature, the expiry, another version or hash, and use |
| `ApprovalToken.IssuedTerms` | agent-service/src/agent/services/approval_service.py:38-106 | the terms an approval is issued on: the action's user and session, the canvas and its version, plan version one when none is set, the hash of the stripped parameters with the cost cap, and the signature over all of it |
| `ApprovalToken.IssuedPasses` | agent-service/src/agent/services/approval_service.py:38-106 | the row of an approval whose action is unchanged passes the checks exactly until it is used, expires, or the canvas moves to another version than zero |
| `ApprovalStore.StepStaysSafe` | agent-service/src/agent/services/approval_service.py:134-194 | every step of every attempt keeps: a passed attempt was bound to its row, a granted one alone has used it |
| `ApprovalStore.OneShot` | agent-service/src/agent/services/approval_service.py:168-194 | at most one attempt on an approval is granted, accept or reject, in any interleaving of reads and conditional updates |
| `ApprovalStore.GrantMeansBound` | agent-service/src/agent/services/approval_service.py:142-194 | a granted attempt was unexpired when it was checked, by the user and in the session of the approval, on its canvas if both name one, at its plan and canvas versions, and decided what the approval became |
| `ApprovalStore.ExpiryMarkIsTransient` | agent-service/src/agent/services/approval_service.py:153-156 | a row carries the expiry mark exactly between the flush and the rollback of the attempt that found it expired; rolling back leaves it pending or used |
| `ApprovalStore.MarkedRowComesBack` | agent-service/src/agent/graph/app.py:781-783 | whatever others do until the rollback, the row comes back as the mark found it |
| `ApprovalStore.GrantedIffBoundAndUnused` | agent-service/src/agent/services/approval_service.py:116-194 | an undisturbed attempt is granted exactly when it is bound and the approval unused |
| `ApprovalStore.IssuedIsGrantedExactlyThen` | agent-service/src/agent/services/approval_service.py:38-194 | from issuing to the grant: the token of the action finds its own row and no other, and after any wait is granted exactly until the approval is used, expires, or the canvas moves to another version than zero |
| `ApprovalStore.ApprovalTable.ReadAndCheck` | agent-service/src/agent/services/approval_service.py:129-166 | reads the row and makes the checks; an expired row is marked and flushed under its lock |
| `ApprovalStore.ApprovalTable.RollBack` | agent-service/src/agent/graph/app.py:781-783 | the rollback undoes the mark and releases the row |
| `ApprovalStore.ApprovalTable.ConsumeIfPending` | agent-service/src/agent/services/approval_service.py:168-194 | the conditional update changes the row only if it is still pending and unconsumed |
| `BalancedJson.ExtractBalanced` | agent-service/src/agent/domain/llm_json.py:18-44 | returns the shortest balanced stretch from the first opening bracket, or nothing exactly when it never closes |
| `BalancedJson.BalancedOnce` | agent-service/src/agent/domain/llm_json.py:25-44 | there is at most one such stretch |
| `BalancedJson.PrintIsNeutral` | agent-service/src/agent/domain/llm_json.py:27-43 | printed JSON, scanned inside an open bracket, never closes it and leaves the scanner as it was |
| `BalancedJson.PrintedIsBalanced` | agent-service/src/agent/domain/llm_json.py:18-44 | a printed object or array is balanced as a whole, whatever follows |
| `BalancedJson.ExtractPrinted` | agent-service/src/agent/domain/llm_json.py:18-44 | after any prefix without the opening bracket and before any suffix, exactly the printed value is extracted |
| `JsonReader.ReadsString` | agent-service/src/agent/domain/llm_json.py:90 | reading a printed string literal gives back its characters, every escape included, and what follows it |
| `JsonReader.ReadsPrinted` | agent-service/src/agent/domain/llm_json.py:90 | reading any printed value gives back the value and what follows it, nested to any depth |
| `JsonReader.ExtractAndRead` | agent-service/src/agent/domain/llm_json.py:57-95 | the round trip: an object or array printed into surrounding text is found and read as the value it was |
| `BoundedLog.BoundedRefinesUnbounded` | agent-service/src/agent/graph/state.py:16-36 | after any nonempty sequence of updates the list is, entry by entry, the last max_len entries of all since the last replace marker, although it is cut at every step |
| `BoundedLog.ZeroKeepsAll` | agent-service/src/agent/graph/state.py:34-36 | a bound of zero keeps everything |
| `BoundedLog.BoundHoldsIffPositive` | agent-service/src/agent/graph/state.py:34-36 | the list stays within its bound exactly when the bound is positive or there is nothing to keep |
| `BoundedLog.StateReducersAreBounded` | agent-service/src/agent/graph/state.py:39-54 | the three reducers of the state, at 120, 80 and 40 |

## Left out

- Node and edge records are modelled after their accessors have read them: alternative dictionary keys,
  missing ids, lower-casing of statuses and string-to-integer conversion are not.
- Python's set iteration order is arbitrary in the model.
- Canvas coordinates are real numbers; floating-point rounding is not modelled.
- HTTP, Redis, the ORM, task queues, the graph framework and the model providers are atomic steps or arbitrary
  answers. A status or canvas that cannot be fetched, and a notice that never arrives, are dropped wakeups.
- PlanCompilers.CompileShortDrama: starts after the fallback that fills an empty shot list, so there is at least
  one shot.
- Prompts, titles, skill catalogues, intent classification and the text of replies.
- The full scan made by a wakeup whose event names no node; it submits every enabled node, roots included.
- Submissions a user makes by hand of nodes with inputs, or of failed ones, while a run goes on.
- When clock jobs fire: a job may run at any time, be put off while its task runs, come again after a timeout, or
  lapse.
- A submission marks its node in flight in the same step. `_mark_node_generating` (registry.py:933-948) swallows a
  failed write, after which the node still reads as open; the run model has no such submission.
- Status writes go through, and nobody else writes a status during a run: users and agents that edit statuses,
  prompts or parameters (which marks what is downstream as stale, too) are not events. While a task with a result
  is due or has a clock job, any failed node downstream may be marked stale; the canvas's own stale flag, which
  keeps it from marking a node twice, is not kept, and marks of nodes that are open anyway change nothing.
- Nodes and edges do not change during a run.
- The status a wakeup writes and the snapshot it plans from are one step, and a task that has ended keeps its outcome.
- RunLength.CalmRunIsShort: has a term for every death, timeout and look at a running task; how many of these a run
  has is not bounded.
- RunEnd.ReadyIffViable: for a part with a task that ended in settlement_error nothing is said;
  `Offers.LeftBehindIsUnsettled` says what such a task may leave behind.
- Closure.NearToFarIffNearerIsBehind: speaks of every order the contract of the walk allows; which one the walk
  takes depends on the order of the edges.
- Points are frozen, settled and given back by the billing service; the model only says that a success is charged
  and no other ending is.
- Offers.ResubmittedIffOffered: speaks of submissions by wakeups, which are the only ones for a node with inputs.
- WakeupsAtOnce.SecondWakeupResubmitsIff: both plans are taken to be accepted, with no outcome in between.
- The remote video price is a parameter; the downstream estimate prices compose as video, so it is not equated
  with what is charged.
- The creation of action, session and approval identifiers: step ids and row ids are assumed fresh, nonces too.
- Payload parsing and the choice of session in the terminal-event consumer, and the marking of the action row.
- SchedulerRun.StepKeepsWakeups: lets a wakeup plan what canvases without repeated node ids offer; for repeated
  ids `SchedulerRun.PlanWakeup` says what is added.
- AgentRun.RunLoop: takes a finite script, so a run that never ends is described by all its finite prefixes; the
  source's two nested loops are one loop over turns.
- TerminalLease.NoticeTable.InsertNotice: the insert and the claim that follows it in the same transaction are one
  step, as the unique index makes a competing insert wait for the commit.
- ApprovalStore.ApprovalTable.ConsumeIfPending: the update and its commit are one step, and only the row an expiry
  mark was flushed to is locked; a database that also holds the lock from reading to updating has fewer runs.
- Agent runs in which a callback throws, clearing or resetting the queues, listeners and the abort controller
  itself (an abort is an arbitrary answer of the world).
- Aliasing between the caller's context array and the loop's in a bare continued run; the agent passes a copy.
- Tool arguments, partial results, usage and details of tool results.
- JsonReader.ReadsPrinted: the reader takes the separators the value was printed with, and no surrogate pairs.
- `parse_llm_json`'s fences, light repair and fallbacks around the balanced extraction.
- `requires_new_approval` and the generation service's task table, which hold no harder property.
- `plan_advance_workflow_layer` and the intent-dependent choice between the plan compilers.
