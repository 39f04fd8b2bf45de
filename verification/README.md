# Verified models of OpenCDA's eCloud barrier and its vision and traffic-light code

Dafny 4.11 models, with proofs, of the parts of the repository whose correctness is an argument and not
a lookup. `dafny verify dfyconfig.toml` checks everything.

**The eCloud tick barrier.** An orchestrator starts a tick, the C++ server pushes it to every vehicle,
each live vehicle runs a step and sends an update, and the server pushes "complete" back once everybody
is accounted for. `EcloudServer`, `PushQueue` and `VehicleSim` model the handlers, the push servers and
the vehicle's main loop: each as a class like the original's, every method tied to a function. `Barrier`
puts those functions together as a transition system with pushes in flight, any number of cars and
unbounded runs, and proves its invariant. `BarrierRuns` draws safety, lockstep and exactly-once
completion from it; `BarrierReports` follows the reports to the orchestrator and `DoneVehicles` the vehicles
after their last update; `BarrierProgress` says exactly when a tick is certain to end, and how soon;
`OrchReply` adds the orchestrator's own assertion. `SplitUpdate` breaks the update handler into its atomic
steps, `SplitTick` puts those into the barrier's ticks, and `SplitRuns` reaches a tick that is announced
several times; `SplitRegister` breaks up the registration handler. `EdgeScript` is the edge scenario's loop;
`EdgeScenario` and `Backlog` say what holds in every run that follows it, `EdgeRuns` builds such runs of any
length; `Reports` follows the reports through the server's queue. `Messages`, `IndexSets` and `Schedules` hold
what they share.

**YOLOv5.** `LayerGraph` and `ChannelPlan`: the planner and the interpreter that keeps only the outputs
it needs. `Nms`: class-offset suppression against one pass per class. `Matching`, `TruePositives`,
`AveragePrecision`, `ApPerClass` and `ConfusionMatrix`: from sort-and-unique matching to the metrics.
`Pooling`, `Tensors`, `SpaceDepth`, `FocusLayer`, `ConvFusion`: fast layers against plain ones.
`TargetAssignment`: labels to grid cells, against what the box decoder can produce. `Sorting` and `Numbers`
hold what they share.

**Traffic lights.** `TrafficLight`: link numbering and the default phase program.

Methods follow the source's imperative code and are proved against functions; the main results are
lemmas about those functions. Conventions:

- Each server handler is one atomic step (except in the `Split` modules); a vehicle's code between two awaits
  is one step. Pushes arrive exactly once, in any order across vehicles.
- The orchestrator starts a tick only after the previous completion was read and the updates were
  fetched, as opencda/scenario_testing/utils/sim_api.py:296-340 does.
- A failed assertion ends the process it is in; it is a state of the model, not a precondition.
- Numbers are exact: 16-bit queue sizes and Python's and C++'s index and rounding rules are written out,
  floating point is modelled by reals. numpy's and torch's sorts are parameters that may order ties
  anyhow; torchvision's `nms` is greedy suppression with ties in row order.

## Results that differ from what the code suggests

- `vehiclesim.py:342` and `:237` assert an empty queue, but the next tick may arrive before the call
  returns. `SendAssertionCanFail` and `JoinAssertionCanFail` give the runs; `TickCertainIffPromising` the
  exact condition under which a tick cannot hang. `sim_api.py:299` and `:329` assert the same of the
  orchestrator's queue; exactly when they fail is `TickReplyFailsIff` and `StartReplyFailsIff`, and in any tick
  that goes well they can (`TickReplyCanFail`).
- A first tick with PULL_WAYPOINTS_AND_TICK is answered with an update no counter counts
  (`vehiclesim.py:238`): with edge period 1 no run gets beyond it (`PeriodOneNeverCompletes`), and it is
  reached (`PeriodOneHangs`).
- In an edge scenario with more than 33 cars the report queue grows every tick (`BacklogAfterTick`). From
  32768 reports on, its size does not fit the drain loop's `int16_t` and draining never empties it
  (`DrainTerminates`); runs reach that point (`BacklogReached`). Registration drains once, so it hands over
  33 cars at most (`OneDrainEnough`, `RegistrationLeavesRest`).
- Several handlers can push the completion of one tick (`AllMayPush`, from registration on `AllPushReached`);
  exactly which do is `PushesIffLoadedLast`, and when the orchestrator notices is `TickCompletes`.
- So can registration handlers, and if the orchestrator drains between a handler's load and its test, the
  server's assertion at `ecloud_server.cc:389` fails (`PushesOrAborts`, `RegistrationCanAbort`).
- A detection's mark can come on as the IoU threshold rises; exactly when is `MarkSurvivesIffNoRival`.
- `parse_model` does not set `c2` for a batch norm, counts a repeated Contract or Expand once, takes a GhostConv
  to yield an odd count, a Concat to join channels and any other module to keep them, so it may record a wrong
  channel count (`RecordedRightIff`, `GhostRecordedWrong`); repeated modules with other channels out than in do not
  fit each other (`BuiltForItsInputIff`).
- The largest average precision is 0.995, not 1 (`ApWithin`). The exact condition for it depends on eps
  (`ClassScore`); the default of 1e-16 vanishes in double precision, so the case eps = 0 applies
  (`ShareIs`).
- `build_targets` can put a target twice into one cell (`SameCellTwiceIff`).
- `SPPF` works for odd kernels only (`SppfWorksIffOdd`).

## Model

| member | source | states |
|---|---|---|
| EcloudServer.EcloudServiceImpl.constructor | opencda/ecloud_server/ecloud_server.cc:186-211 | A fresh server knows no cars, clients, reports or waypoints; with Server_StartScenario's car count (at most 512) and edge flag. |
| EcloudServer.EcloudServiceImpl.GetVehicleUpdates | opencda/ecloud_server/ecloud_server.cc:213-240 | A drain call returns the newest reports first, at most 33, leaves the rest, and zeroes the reply count exactly when none is left; the queue size is read into 16 bits. |
| EcloudServer.EcloudServiceImpl.TakeBatch | opencda/ecloud_server/ecloud_server.cc:219-230 | The loop pops from the back; its break after index 32 makes a batch of up to 33. |
| EcloudServer.RepliesNewestFirst | opencda/ecloud_server/ecloud_server.cc:219-230 | The i-th report handed out is the i-th from the end of the queue, and the rest stays in order. |
| EcloudServer.EcloudServiceImpl.ClientSendUpdate | opencda/ecloud_server/ecloud_server.cc:242-298 | One update: whether it is queued, which counter grows, and the completion push with the sender's tick id exactly when replies plus completions equal the cars. |
| EcloudServer.ReportsQueued | opencda/ecloud_server/ecloud_server.cc:246-262 | An update is queued for the orchestrator exactly in an edge scenario, from the spectator (index 0), or as a TICK_DONE or DEBUG_INFO_UPDATE; otherwise the queue stays as it is. |
| EcloudServer.EcloudServiceImpl.ClientGetWaypoints | opencda/ecloud_server/ecloud_server.cc:301-332 | Returns the first buffer stored for the vehicle, or an empty one; changes nothing. |
| EcloudServer.GetWaypointsIsFirst | opencda/ecloud_server/ecloud_server.cc:305-325 | The buffer returned is the one at the least matching position. |
| EcloudServer.NoWaypoints | opencda/ecloud_server/ecloud_server.cc:301-332 | Without a buffer for the vehicle the reply is empty. |
| EcloudServer.EcloudServiceImpl.ClientRegisterVehicle | opencda/ecloud_server/ecloud_server.cc:340-360 | A registration gets the next index and one more push client. |
| EcloudServer.EcloudServiceImpl.ClientCarlaUpdate | opencda/ecloud_server/ecloud_server.cc:361-391 | The second registration call queues a report, counts a reply, and pushes id -1 when all cars have replied. |
| EcloudServer.EcloudServiceImpl.ServerDoTick | opencda/ecloud_server/ecloud_server.cc:398-424 | A tick clears the reply flags of the cars and the reply count (not the completion count), and pushes one tick to every client. |
| EcloudServer.EcloudServiceImpl.ServerPushEdgeWaypoints | opencda/ecloud_server/ecloud_server.cc:426-445 | The stored waypoints are replaced by the pushed set, in order. |
| EcloudServer.EcloudServiceImpl.ServerEndScenario | opencda/ecloud_server/ecloud_server.cc:467-479 | END with an invalid id goes to every client and becomes the command. |
| Reports.DrainKeepsReports | opencda/ecloud_server/ecloud_server.cc:219-230 | However many drain calls: what they return, in reverse, together with what is left is the queue; nothing lost or doubled. |
| Reports.DrainCompletes | opencda/ecloud_server/ecloud_server.cc:219-235 | A queue of n < 32768 reports empties in exactly ceil(n / 33) calls, newest first, and in no fewer. |
| Reports.DrainTerminates | opencda/ecloud_server/ecloud_server.cc:219-230 | Draining until empty succeeds if and only if the queue holds fewer than 32768 reports: beyond, the 16-bit size stops it short. |
| Reports.OneDrainEnough | opencda/scenario_testing/utils/sim_api.py:335 | The single drain after registration hands over everything if and only if there are at most 33 cars. |
| Reports.ReportsConserved | opencda/ecloud_server/ecloud_server.cc:213-262 | Over any sequence of handler calls, reports queued are, as a multiset, those handed out plus those still queued. |
| PushQueue.EcloudPushServer.Receive | opencda/ecloud_server/ecloud_comms.py:104-134 | One push: dropped if it repeats the last one, otherwise noted and queued, with the queue-empty assertion's failure reported. |
| PushQueue.ResendIsDropped | opencda/ecloud_server/ecloud_comms.py:104-113 | An immediate resend leaves no second copy, read or unread. |
| VehicleSim.Client.AfterJoin | vehiclesim.py:235-237 | Return of the registration call: the client waits, or its assertion fails on a queued push. |
| VehicleSim.Client.TakePush | vehiclesim.py:238-239 | The read before the loop keeps tick id 0 and does not translate the waypoint command; the one inside asserts a new id and does both. |
| VehicleSim.Client.EnqueueWaypoints | vehiclesim.py:348-353 | The fetched buffer is queued and the command becomes TICK; without an edge scenario the client fails there. |
| VehicleSim.Client.RunStep | vehiclesim.py:254-331 | The update sent for each command, done or not, and when the client stops sending or exits. |
| VehicleSim.Client.AfterSend | vehiclesim.py:333-342 | Reporting done sticks; a push that came before the call returned fails the assertion. |
| Barrier.CountersSayComplete | opencda/ecloud_server/ecloud_server.cc:284-286 | The two counters add up to the number of cars exactly when the two disjoint vehicle sets cover all vehicles. |
| Barrier.StepKeepsInv | opencda/ecloud_server/ecloud_server.cc:242-445 | Every step of server, vehicles, pushes and orchestrator keeps the protocol invariant. |
| Barrier.StartInv | opencda/ecloud_server/ecloud_server.cc:186-211 | The initial state satisfies the invariant, for any number of cars up to 512. |
| Barrier.HandleTest | opencda/ecloud_server/ecloud_server.cc:264-293 | The handler's counter test finds exactly that all vehicles have replied this tick or reported done. |
| Barrier.BroadcastKeepsInv | opencda/ecloud_server/ecloud_server.cc:398-424 | A tick starts with every live vehicle one push away from it. |
| BarrierRuns.RunKeepsInv | opencda/ecloud_server/ecloud_server.cc:242-445 | The invariant holds after every run. |
| BarrierRuns.DoneIsReal | vehiclesim.py:326-340 | A vehicle counted as completed did send TICK_DONE or DEBUG_INFO_UPDATE at some action of the run. |
| BarrierRuns.RepliedIsReal | vehiclesim.py:298 | A vehicle counted as having replied did send TICK_OK since the last tick was started. |
| BarrierRuns.BarrierSafety | opencda/ecloud_server/ecloud_server.cc:284-293 | Safety over every run: when completion of a tick is pushed, every vehicle has sent TICK_OK in it or has reported done then or earlier. |
| BarrierRuns.PusherIsHandler | opencda/ecloud_server/ecloud_server.cc:283-293 | Only an update or registration handler pushes to the orchestrator, at most one push, with the current label, into an empty queue. |
| BarrierRuns.CompletionExactlyWhenAllIn | opencda/ecloud_server/ecloud_server.cc:284-293 | An update handler pushes if and only if it is the one that makes everybody accounted for. |
| BarrierRuns.CompletionsSoFar | opencda/ecloud_server/ecloud_server.cc:289-293 | At every moment of a run the pushes so far are one per finished phase, the current one at most once. |
| BarrierRuns.LabelsIncrease | opencda/ecloud_server/ecloud_comms.py:104-113 | The labels pushed are -1, 0, 2, 3, ...: strictly increasing. |
| BarrierRuns.Lockstep | vehiclesim.py:343-346 | A live vehicle is at the current tick or the one before and has at most one push in flight or queued. |
| BarrierRuns.LiveAssertionsHold | opencda/ecloud_server/ecloud_comms.py:130-132 | For a live vehicle, the queue is empty when a push arrives, the push is not taken for a resend, and a push read has a new id. |
| BarrierRuns.ServerAssertionsHold | opencda/ecloud_server/ecloud_server.cc:389-405 | The server's assertions hold: the tick id is the next one, and registration completes with one report per reply. |
| BarrierRuns.CompletionIsAccepted | opencda/ecloud_server/ecloud_comms.py:120-132 | The orchestrator never drops a genuine completion as a resend, and its queue is empty when one arrives. |
| BarrierReports.ReportsArrive | opencda/ecloud_server/ecloud_server.cc:213-262 | In every run, what the orchestrator was meant to get (registrations, edge and spectator updates, everyone's last update) is, report by report, what it was handed and what still waits. |
| BarrierReports.LastReportArrives | opencda/ecloud_server/ecloud_server.cc:246-262 | Every vehicle counted as done has its last update among those. |
| BarrierReports.DebugRequestDrains | opencda/scenario_testing/utils/sim_api.py:216-226 | When the tick of a debug request is over (unless it was the first), the orchestrator has been handed everything, or 32768 or more reports are left. |
| BarrierReports.DebugFetchEnds | opencda/scenario_testing/utils/sim_api.py:216-226 | That fetching ends: fewer than 32768 reports take a call for every 33 and one that comes back empty. |
| BarrierReports.FlagsAlwaysTell | opencda/ecloud_server/ecloud_server.cc:264 | In every run a car's flag is set if it replied in this tick, and not set while it is awaited. |
| BarrierReports.PushesArrive | opencda/ecloud_server/ecloud_server.cc:398-479 | In every run each push for a vehicle arrives once: what was pushed is, push by push, what was brought to it and what is still on its way. |
| DoneVehicles.StepTells | vehiclesim.py:256-298 | In every run a live vehicle's step sends its index, the tick, and how the step went: arrived, or not and how long it took; a debug request gets debug information. |
| DoneVehicles.LastUpdateIsLast | vehiclesim.py:320-331 | After a vehicle's TICK_DONE or DEBUG_INFO_UPDATE it sends no update again. |
| DoneVehicles.DoneStep | vehiclesim.py:320-359 | In every run a done vehicle's next pass sends nothing: with done behaviour CONTROL it waits for the next push (or fails its assertion if one is there), otherwise it exits. |
| DoneVehicles.OneReadAfterDone | vehiclesim.py:320-359 | Without CONTROL a vehicle reads at most one push after its last update. |
| DoneVehicles.ExitsOnlyThen | vehiclesim.py:248-359 | A vehicle has exited only if the scenario was ended or, without CONTROL, it had reported done. |
| DoneVehicles.DebugRequestEndsAll | vehiclesim.py:256-258 | When the tick of a debug request is over, every vehicle has reported done. |
| BarrierProgress.StepLowersTotal | vehiclesim.py:248-346 | In an open tick each step of a live vehicle lowers a measure, and no other vehicle step raises it. |
| BarrierProgress.SmoothCanStep | vehiclesim.py:248-346 | While completion has not been pushed some live vehicle can step, in a tick that began well. |
| BarrierProgress.TickEnds | opencda/ecloud_server/ecloud_server.cc:284-293 | Such a tick ends within 6 * numCars steps of live vehicles, whatever their order. |
| BarrierProgress.DoomedForever | opencda/ecloud_server/ecloud_server.cc:284-286 | From a doomed state no continuation ever pushes completion. |
| BarrierProgress.UnpromisingCanHang | vehiclesim.py:237-238 | Every tick that does not begin well has a run into a doomed state. |
| BarrierProgress.NoEmulator | vehiclesim.py:348-353 | Outside an edge scenario a waypoint tick ends a client that fetches: it has no network emulator. |
| BarrierProgress.TickCertainIffPromising | vehiclesim.py:326-346 | A tick is certain not to hang if and only if, when it starts, some vehicle is live, no live one crashed or is still inside a call, and a waypoint tick is not the first and belongs to an edge scenario. |
| BarrierProgress.LateReturnCrashes | vehiclesim.py:342 | If the next tick arrives before the update call returns, the assertion after the call fails. |
| BarrierProgress.SendAssertionCanFail | vehiclesim.py:342 | A complete run from registration in which it does fail, with one car. |
| BarrierProgress.JoinAssertionCanFail | vehiclesim.py:235-237 | A complete run from registration in which the assertion after the registration call fails: the first tick arrives before that call returns. |
| OrchReply.SimRunIsRun | opencda/scenario_testing/utils/sim_api.py:296-300 | With the orchestrator waiting for each reply and asserting an empty queue, every run is one of the barrier, so all of its results hold. |
| OrchReply.OrchWaits | opencda/scenario_testing/utils/sim_api.py:296-300 | Between a call and its reply, and for good after a failed assertion, the orchestrator does nothing. |
| OrchReply.TickReplyFailsIff | opencda/scenario_testing/utils/sim_api.py:297-300 | After any steps of the vehicles since a tick was started with somebody taking part, the assertion after Server_DoTick fails if and only if everybody is accounted for before its reply arrives. |
| OrchReply.StartReplyFailsIff | opencda/scenario_testing/utils/sim_api.py:322-330 | Likewise after Server_StartScenario, if and only if all cars have registered before its reply. |
| OrchReply.TickReplyCanFail | opencda/scenario_testing/utils/sim_api.py:297-300 | In every tick that is certain not to hang it can fail: the vehicles can complete the tick before the reply. |
| OrchReply.ReplyAssertionCanFail | opencda/scenario_testing/utils/sim_api.py:299 | A complete run from registration in which it fails at the first tick, with one car. |
| OrchReply.StartAssertionCanFail | opencda/scenario_testing/utils/sim_api.py:322-330 | A run in which it fails while the cars register. |
| EdgeScript.RunScenario | opencda/scenario_testing/ecloud_edge_16_car.py:74-100 | The loop orders exactly the script: a waypoint push and tick every k-th step, plain ticks between, then the debug request. |
| EdgeScript.PushRightBeforeWaypointTick | opencda/scenario_testing/ecloud_edge_16_car.py:92-95 | In the schedule every waypoint tick comes right after its push and no push comes otherwise. |
| EdgeScript.ScheduleCommand | opencda/scenario_testing/ecloud_edge_16_car.py:84-95 | The t-th tick ordered carries waypoints exactly when k divides t. |
| EdgeScript.DebugComesLast | opencda/scenario_testing/ecloud_edge_16_car.py:97-100 | The script orders n + 1 ticks, the debug request once and at the end. |
| DoneVehicles.ScriptEndsAll | opencda/scenario_testing/ecloud_edge_16_car.py:97-100 | A run that has followed the whole script, and is through with its last tick, has every vehicle done. |
| EdgeScenario.RunRemembers | opencda/ecloud_server/ecloud_server.cc:405-438 | After every run the server's waypoints are those of the last push, its tick number counts the ticks ordered, and an open tick is the last order. |
| EdgeScenario.CommandFollowsScript | opencda/scenario_testing/ecloud_edge_16_car.py:84-99 | In every run whose orders follow the script, the open tick carries waypoints exactly when k divides its number, the final debug request aside. |
| EdgeScenario.WaypointsAreFresh | vehiclesim.py:348-353 | In every run whose orders follow the script, what a live vehicle fetches for tick t is its first buffer in the set pushed just before t: never an older or a newer set. |
| EdgeScenario.PeriodOneNeverCompletes | opencda/scenario_testing/ecloud_edge_16_car.py:84-93 | With edge period k = 1 no run that follows the script completes its first tick. |
| EdgeScenario.PeriodOneHangs | opencda/scenario_testing/ecloud_edge_16_car.py:84-93 | A complete run from registration that gets there, with one car. |
| Backlog.LeftIs | opencda/ecloud_server/ecloud_server.cc:219-235 | With c > 33 cars the reports left after tick t reach 32768 if and only if 2c + (t - 1)(c - 33) does; before that they are c + t(c - 33). |
| Backlog.BacklogAfterTick | opencda/scenario_testing/utils/sim_api.py:305-319 | In every run that follows the schedule (k >= 2) with nobody done, that is the length of the report queue after each tick. |
| EdgeRuns.ScheduleIsRun | opencda/scenario_testing/ecloud_edge_16_car.py:78-100 | For any number of cars and ticks and every k >= 2, some run follows the schedule that far with every car taking part. |
| EdgeRuns.BacklogReached | opencda/ecloud_server/ecloud_server.cc:219-230 | So for every number of cars above 33 some run makes the queue outgrow 16 bits, and then no number of drain calls empties it. |
| EdgeRuns.RegistrationLeavesRest | opencda/scenario_testing/utils/sim_api.py:335 | And some run leaves all but 33 registrations behind. |
| SplitUpdate.AtomicPushes | opencda/ecloud_server/ecloud_server.cc:268-293 | Run one after another, the handlers of a tick push exactly once, at the last. |
| SplitUpdate.SplitRefinesAtomic | opencda/ecloud_server/ecloud_server.cc:268-293 | With increment, the two loads and the test interleaved arbitrarily: the server's state is that of the atomic handlers in increment order, nobody pushes twice or before all have counted, and when all are through somebody pushed. |
| SplitUpdate.TestSucceedsIff | opencda/ecloud_server/ecloud_server.cc:284-286 | A handler's test succeeds if and only if everybody has counted and both values it loaded are the present ones. |
| SplitUpdate.PushesIffLoadedLast | opencda/ecloud_server/ecloud_server.cc:284-293 | In every interleaving a handler pushes if and only if it loads the reply count after every TICK_OK update was counted and the completion count after every final one was. |
| SplitUpdate.PushesCounted | opencda/ecloud_server/ecloud_server.cc:284-293 | When all are through, the pushes number exactly those handlers. |
| SplitUpdate.AllMayPush | opencda/ecloud_server/ecloud_server.cc:284-293 | For any number of handlers there is an interleaving in which all of them push. |
| SplitUpdate.SecondPush | opencda/ecloud_server/ecloud_comms.py:115-132 | A further push fails the queue assertion if and only if the first is unread; if read, it is dropped when equal, duration included, and otherwise queued as a stale completion. |
| SplitUpdate.OneCompletionIffAlike | opencda/ecloud_server/ecloud_comms.py:104-132 | Read one by one, several pushes amount to one completion if and only if they are all equal. |
| SplitUpdate.TickCompletesOnceIff | opencda/ecloud_server/ecloud_server.cc:284-293 | A tick is seen to complete exactly once if and only if the handlers that load late report the same duration. |
| SplitTick.AwaitedFillTick | opencda/ecloud_server/ecloud_server.cc:284-286 | In every open tick of the barrier whose command is answered by counted updates, any counted updates of the vehicles still awaited fill the cars, and a completion of the tick is new to the orchestrator. |
| SplitTick.SplitRefinesWhole | opencda/ecloud_server/ecloud_server.cc:268-293 | Handlers run their steps while vehicles read, step and call: in every run of such a tick, vehicles and mail are as in a legal run of the barrier with whole handlers, nobody pushes before all awaited updates were counted, and all handlers are through exactly when everybody is accounted for. |
| SplitTick.TickCompletes | opencda/ecloud_server/ecloud_server.cc:268-293 | So when all handlers of a tick are through, however they and the vehicles interleaved, completion is seen, and once exactly under the condition of TickCompletesOnceIff. |
| SplitRuns.AllPushReached | opencda/ecloud_server/ecloud_server.cc:283-293 | For any number of cars, ticks and every k >= 2, a run from registration leads to a tick that all its handlers announce; with two cars or more the orchestrator sees it several times. |
| SplitRegister.PushesOrAborts | opencda/ecloud_server/ecloud_server.cc:361-391 | With storing, load and test of the registration handlers interleaved, and the orchestrator draining once it is told: a handler pushes if and only if it loads after every report was stored (and from a counter the drain has not reset) and tests before the drain; if it tests after the drain instead, the assertion fails. |
| SplitRegister.SomebodyPushed | opencda/ecloud_server/ecloud_server.cc:381-391 | When all those handlers are through, somebody has pushed. |
| SplitRegister.RegistrationSeenOnce | opencda/ecloud_server/ecloud_comms.py:104-113 | Pushes of registration are alike: read one by one they are one completion, made after every car reported. |
| SplitRegister.RegistrationCanAbort | opencda/ecloud_server/ecloud_server.cc:389-390 | With two cars or more, an interleaving in which the server's assertion fails. |
| SplitRegister.AbortIsFinal | opencda/ecloud_server/ecloud_server.cc:389 | After a failed assertion no handler of that server gets any further. |
| SplitRegister.TwoMayPush | opencda/ecloud_server/ecloud_server.cc:387-391 | And one in which two handlers push. |
| LayerGraph.ForwardOnce | yolov5/models/yolo.py:95-106 | The interpreter's result, including an index out of range and a read of a discarded output. |
| LayerGraph.SaveListCovers | yolov5/models/yolo.py:317 | The list built with x % i holds every output some later layer reads, negative indices included. |
| LayerGraph.PrunedEqualsFull | yolov5/models/yolo.py:95-106 | For every layer list the planner accepts, any layers and any input, keeping the listed outputs gives what keeping all gives; a discarded output is never read. |
| LayerGraph.EnoughSavedIffCovers | yolov5/models/yolo.py:99-103 | A save list gives the full result if and only if it holds every output that is read. |
| LayerGraph.SaveListIsRead | yolov5/models/yolo.py:317 | For valid indices the planner's list holds nothing that no layer reads. |
| ChannelPlan.MakeDivisibleIsLeast | yolov5/utils/general.py:619-623 | The least multiple of the divisor that is not below x. |
| ChannelPlan.ConvChannelsAre | yolov5/models/yolo.py:290-292 | An output count of `no` is kept; any other becomes the least multiple of 8 not below count times width multiple. |
| ChannelPlan.ParseModel | yolov5/models/yolo.py:279-322 | The planner's loop yields, per layer, the channels its modules are built for and recorded with, its copies after the depth gain or its repeats argument, and the save list; or fails where Python raises. |
| ChannelPlan.RoundIsNearest | yolov5/models/yolo.py:286 | The rounding of the depth gain is to the nearest integer, the even one of two. |
| ChannelPlan.BuiltAsGained | yolov5/models/yolo.py:286-312 | Each module is built as often as the nearest integer to repeats times depth multiple says, once at least and with one repeat unscaled; those that take repeats as an argument are built once and get that number. |
| ChannelPlan.RepeatedIff | yolov5/models/yolo.py:286-312 | k modules in sequence give the channel count of one if and only if k is 1 or, for Contract and Expand, the gain is 1 (or no channel is left); the modules of the else branch aside. |
| ChannelPlan.RecordedRightIff | yolov5/models/yolo.py:286-321 | The recorded counts are those of the tensors for all layers but Detect if and only if every batch norm's source has the real count of the last layer before it (the branch leaves c2 alone), every repeated Contract or Expand has gain 1 (or no channel left), no Ghost layer has an odd `no` of outputs, every Concat joins channels (or adds none to its first source's), and the modules of the else branch give back their input's count. |
| ChannelPlan.MovedChannels | yolov5/models/common.py:268-293 | The counts used for Contract and Expand are those of the tensors these modules make. |
| ChannelPlan.PlainListsAreRight | yolov5/models/yolo.py:286-321 | So they are for every list in which batch norms read -1, no Contract or Expand of another gain is repeated, no Ghost layer has an odd `no` of outputs, every Concat joins dimension 1 and the else branch's modules keep every count. |
| ChannelPlan.BuiltForItsInputIff | yolov5/models/yolo.py:287-312 | Then a layer's first module is built for what it is fed, and all its modules are if and only if it is not repeated, is built without counts, or yields as many channels as it takes. |
| ChannelPlan.RepeatRecordedWrong | yolov5/models/yolo.py:305-312 | A Contract repeated twice is recorded with 64 channels and yields 256. |
| ChannelPlan.GhostRecordedWrong | yolov5/models/common.py:239-249 | GhostConv with no = 255 outputs yields 254, is recorded with 255, and the layer behind it is built for 255. |
| ChannelPlan.JoinRecordedWrong | yolov5/models/common.py:296-303 | A Concat over the batch dimension is recorded with the sum of the channels and keeps one source's count. |
| ChannelPlan.OtherRecordedWrong | yolov5/models/yolo.py:309-310 | A plain convolution falls to the else branch and is recorded with its input's count. |
| ChannelPlan.ConvChannelsOdd | yolov5/models/yolo.py:290-292 | A planned count is odd exactly when it is an odd `no`: every other one is rounded to a multiple of 8. |
| ChannelPlan.NormRecordedWrong | yolov5/models/yolo.py:297-298 | A batch norm two layers back is recorded with the wrong count. |
| Nms.NonMaxSuppression | yolov5/utils/general.py:836-904 | Per image: candidates, cap, one shifted pass, first max_det. |
| Nms.SuppressesIsIou | yolov5/utils/general.py:876-888 | For boxes with positive sides: one suppresses another exactly when the area they have in common exceeds the threshold times the area they cover together. |
| Nms.CommonHolds | yolov5/utils/general.py:888 | The common box behind that area holds exactly the points of both. |
| Nms.EqualSuppress | yolov5/utils/general.py:888 | Equal boxes suppress each other at every threshold below 1. |
| Nms.ImageCandidates | yolov5/utils/general.py:838-873 | The candidates of an image are exactly the classes scored above the threshold (objectness times class score, every class or the first best), of the wanted classes, with the box of that centre and size, in order. |
| Nms.CapKeepsBest | yolov5/utils/general.py:879-882 | At most 30000 candidates are left, none scoring less than a dropped one. |
| Nms.AgnosticKeeps | yolov5/utils/general.py:885-890 | Across classes, a candidate stays exactly when no better one that stays suppresses it, and the best maxDet are returned. |
| Nms.ShiftApart | yolov5/utils/general.py:886-887 | Within the 7680-pixel frame, boxes of different classes never suppress each other once shifted. |
| Nms.ByScoreSorts | yolov5/utils/general.py:888 | The order is by falling score, keeps every candidate, and is stable: selecting before or after makes no difference. |
| Nms.GreedyKeeps | yolov5/utils/general.py:888 | A candidate is kept if and only if no earlier kept one suppresses it. |
| Nms.GreedyPerClass | yolov5/utils/general.py:886-888 | Restricted to a class, a pass in which classes ignore each other is that class's own pass. |
| Nms.TrickRightIffClassesApart | yolov5/utils/general.py:886-888 | For any boxes the shifted pass equals the passes per class merged by score if and only if, among what those keep, no shifted detection suppresses a later one of another class. |
| Nms.ClassOffsetIsPerClass | yolov5/utils/general.py:886-888 | It does for all boxes in the frame. |
| Nms.TrickCanFail | yolov5/utils/general.py:886-888 | Outside the frame it can fail: two boxes for which it does. |
| Nms.DetectIsPerClass | yolov5/utils/general.py:838-899 | For class-aware calls on an image whose candidate boxes lie in the frame, the result is the max_det best of the merged passes per class, in order. |
| Matching.BestPerDetection | yolov5/val.py:89-90 | The first pass keeps, for each detection with a candidate, one of greatest IoU. |
| Matching.MatchesAreMatching | yolov5/val.py:88-92 | Both versions of the passes use each detection and each label at most once, and only candidate pairs. |
| Matching.MatchesAreWinners | yolov5/val.py:89-92 | In val.py a match is made exactly for the lowest detection among those whose best label it is. |
| Matching.ResortedTakesHighest | yolov5/utils/metrics.py:158-162 | With the second sort the label goes to the highest IoU among those. |
| Matching.SorterExists | yolov5/val.py:89 | An order as assumed of the sort exists. |
| TruePositives.ProcessBatch | yolov5/val.py:80-93 | Entry (d, i) is set exactly when detection d is matched at threshold i. |
| TruePositives.MatchesAreSound | yolov5/val.py:84-92 | A match has IoU at least the threshold and equal classes, and no other match shares its detection or label. |
| TruePositives.PositivesAtMostLabels | yolov5/val.py:71-93 | A class never has more true positives than labels. |
| TruePositives.BestPersists | yolov5/val.py:89-90 | Raising the threshold does not change a surviving detection's best label, without IoU ties. |
| TruePositives.FewerAtHigherThreshold | yolov5/val.py:83-92 | Without ties the number of true positives never grows with the threshold. |
| TruePositives.MarksAreMatches | yolov5/val.py:93 | A column has one mark per match. |
| TruePositives.BestIsPreferred | yolov5/val.py:88-90 | Without ties the first pass keeps exactly each detection's best label of its class, if that reaches the threshold. |
| TruePositives.MarkSurvivesIffNoRival | yolov5/val.py:83-93 | A mark made at a higher threshold is there at a lower one if and only if no lower detection with the same best label enters between the two. |
| TruePositives.MarkCanComeOn | yolov5/val.py:91-93 | An image on which a mark comes on as the threshold rises. |
| AveragePrecision.EnvelopeBounds | yolov5/utils/metrics.py:112 | The envelope is non-increasing and on or above the curve ... |
| AveragePrecision.EnvelopeIsLeast | yolov5/utils/metrics.py:112 | ... and below every other such curve. |
| AveragePrecision.Find | yolov5/utils/metrics.py:118 | Interpolation's search returns the last position not above x, or none. |
| AveragePrecision.InterpOnChord | yolov5/utils/metrics.py:118 | Between two neighbouring points the interpolated value lies on the line through them. |
| AveragePrecision.InterpOutside | yolov5/utils/metrics.py:118 | Outside of the points it is the first or the last value. |
| AveragePrecision.ApIsSum | yolov5/utils/metrics.py:115-118 | An average precision is a hundredth of the sum of the 101 samples, the first and last counting half. |
| AveragePrecision.CornerAp | yolov5/utils/metrics.py:91-124 | The exact value for predictions that are all right but find only m hundredths of the labels: (1 + m / 100) / 2. |
| AveragePrecision.ApWithin | yolov5/utils/metrics.py:107-123 | For curves in range AP lies between 0 and 0.995: the last of the 101 samples is always zero. |
| AveragePrecision.BestScoreIffClean | yolov5/utils/metrics.py:107-118 | For any curves AP is 0.995 exactly when precision is still 1 at the last point of recall 0.99, or beyond. |
| AveragePrecision.CurvesAreSound | yolov5/utils/metrics.py:64-72 | With at most as many true positives as labels, recall is non-decreasing and at most 1 (below it unless eps is 0), precision within [0, 1]. |
| AveragePrecision.RecallIs | yolov5/utils/metrics.py:70-74 | After k + 1 predictions recall times (labels + eps) is the number of hits among them. |
| AveragePrecision.PrecisionIs | yolov5/utils/metrics.py:77-78 | And precision times k + 1 is that number. |
| AveragePrecision.ClassScore | yolov5/utils/metrics.py:57-77 | For every eps, a class's AP is 0.995 exactly when its ranking has more than 99% of its labels, as the denominator counts them, before its first false positive, or consists of exactly 99%. |
| AveragePrecision.ShareIs | yolov5/utils/metrics.py:31 | With eps = 1e-16 exactly 99% is never enough; with eps = 0, which is what floating point makes of it, it is if nothing else is ranked. |
| ApPerClass.UniqueIs | yolov5/utils/metrics.py:50 | Each target class once, in order. |
| ApPerClass.RankerExists | yolov5/utils/metrics.py:46-47 | An order as assumed of the ranking exists. |
| ApPerClass.AllRowsAre | yolov5/val.py:221-265 | Every detection of every image has its row, in order, with its confidence, class and a mark for each threshold at which it is a match. |
| ApPerClass.ScorePerClass | yolov5/utils/metrics.py:46-77 | The matrix of AP values, one per class and threshold; zero for a class without predictions. |
| ApPerClass.HitsPermuted | yolov5/utils/metrics.py:46-47 | Ranking does not change the number of true positives. |
| ApPerClass.HitsAtMostTargets | yolov5/val.py:220-265 | Over a whole data set a class has no more true positives than targets, at every threshold. |
| ApPerClass.ScoresAreBounded | yolov5/utils/metrics.py:56-77 | So for every data set each AP lies in [0, 0.995], reaching the top exactly for clean rankings. |
| ConfusionMatrix.ConfusionMatrix.constructor | yolov5/utils/metrics.py:128-132 | A zero matrix with one row and column for background. |
| ConfusionMatrix.ConfusionMatrix.ProcessBatch | yolov5/utils/metrics.py:134-178 | The cells incremented by one call: one per label, and one per unmatched confident detection if anything matched. |
| ConfusionMatrix.ConfidentSelects | yolov5/utils/metrics.py:153 | The detections used are those above the threshold, all of them, in order. |
| ConfusionMatrix.EntryOfImage | yolov5/utils/metrics.py:170-185 | What an image adds to each entry: labels of the column's class matched with a detection of the row's class, or unmatched for background; unmatched detections in the background column if something matched. |
| ConfusionMatrix.ConfusionMatrix.Missed | yolov5/utils/metrics.py:144-148 | Without detections every label counts as background. |
| ConfusionMatrix.ConfusionMatrix.CountLabels | yolov5/utils/metrics.py:166-173 | Each label goes to its one match's class or to background. |
| ConfusionMatrix.ConfusionMatrix.CountExtras | yolov5/utils/metrics.py:175-178 | Each unmatched detection goes to the background column. |
| ConfusionMatrix.Accumulated | yolov5/val.py:220-247 | The matrix after all images of a validation run. |
| ConfusionMatrix.SomeMatch | yolov5/utils/metrics.py:155-166 | There is a match exactly when some pair exceeds the threshold. |
| ConfusionMatrix.ColumnOfImage | yolov5/utils/metrics.py:166-173 | One call adds to column c the number of labels of class c. |
| ConfusionMatrix.RowOfImage | yolov5/utils/metrics.py:168-178 | One call adds to row r the number of confident detections of class r, or nothing when no detection matched. |
| ConfusionMatrix.Conservation | yolov5/utils/metrics.py:144-178 | The same for the sums over any sequence of images. |
| Pooling.Pool | yolov5/models/common.py:200 | Output size of the pooling: the input's for odd kernels, one more for even ones. |
| Pooling.PoolIs | yolov5/models/common.py:200 | An odd kernel yields the greatest value within k // 2 rows and columns, padding never winning. |
| Pooling.RadiiAdd | yolov5/models/common.py:222-224 | Greatest of greatest: radii add, in both dimensions and up to the border. |
| Pooling.PoolsCompose | yolov5/models/common.py:222-224 | Pooling by k then l is pooling by k + l - 1, for odd kernels and any grid. |
| Pooling.PoolsAreOne | yolov5/models/common.py:222-224 | n poolings of odd kernel k are one of kernel n (k - 1) + 1. |
| Pooling.CatWorksIff | yolov5/models/common.py:197-224 | Concatenation succeeds exactly when all channels have one height and one width. |
| Pooling.SppfIsSpp | yolov5/models/common.py:209-224 | The fast layer with odd k is the plain one with kernels k, 2k - 1, 3k - 2. |
| Pooling.DefaultSppfIsSpp | yolov5/models/common.py:211 | With k = 5: kernels 5, 9, 13. |
| Pooling.SppfWorksIffOdd | yolov5/models/common.py:222-224 | Its concatenation succeeds if and only if k is odd. |
| Tensors.OffsetInRange | yolov5/models/common.py:277 | An index inside a shape has a flat position, from which it is recovered. |
| Tensors.UnravelInside | yolov5/models/common.py:277 | Every flat position has an index inside the shape. |
| Tensors.PermuteAt | yolov5/models/common.py:278 | A permuted, made contiguous, tensor holds each element at the permuted index. |
| Tensors.PermuteBack | yolov5/models/common.py:292 | A permutation is undone by its inverse. |
| SpaceDepth.Perms | yolov5/models/common.py:278-292 | The two layers' permutations are inverse to each other. |
| SpaceDepth.ExpandUndoesContract | yolov5/models/common.py:268-293 | Expand after Contract is the identity for every gain dividing height and width. |
| SpaceDepth.ContractUndoesExpand | yolov5/models/common.py:268-293 | Contract after Expand is the identity whenever the gain's square divides the channels. |
| SpaceDepth.ContractWorksIff | yolov5/models/common.py:277 | Contract's view succeeds if and only if the gain divides height and width. |
| SpaceDepth.ExpandWorksIff | yolov5/models/common.py:291 | Expand's view succeeds if and only if the gain's square divides the channels. |
| SpaceDepth.ContractAt | yolov5/models/common.py:277-279 | Pixel (y s + i, z s + j) of channel c goes to pixel (y, z) of channel (i s + j) C + c. |
| FocusLayer.FocusAt | yolov5/models/common.py:235 | Where every pixel goes: the one at row i and column j of its block to channel block 2 j + i of the result. |
| FocusLayer.FocusIsContract | yolov5/models/common.py:232-236 | Focus is Contract(2) with its two middle channel blocks swapped. |
| FocusLayer.FocusWorksIff | yolov5/models/common.py:235 | Its concatenation succeeds if and only if height and width are even. |
| ConvFusion.DiagScales | yolov5/utils/torch_utils.py:259-260 | Multiplying by the diagonal matrix scales each filter. |
| ConvFusion.ConvolvedPixel | yolov5/utils/torch_utils.py:249-255 | The convolution that is fused: its size, and each pixel as the filter times what it meets, plus the bias if there is one. |
| ConvFusion.PatchIs | yolov5/utils/torch_utils.py:249-255 | Each weight meets the pixel at its channel of the group, row and column of the window after stride and padding, zero outside the image. |
| ConvFusion.OutSizeIs | yolov5/utils/torch_utils.py:249-255 | Output positions are exactly those whose window lies in the padded image. |
| ConvFusion.FirstChannelIs | yolov5/utils/torch_utils.py:249-255 | A filter's input channels are those of its group. |
| ConvFusion.FusedBias | yolov5/utils/torch_utils.py:263-265 | The fused bias: the scaled convolution bias (zero if absent) plus the normalisation's shift. |
| ConvFusion.FusionKeepsMeaning | yolov5/utils/torch_utils.py:257-265 | On every image the fused convolution computes the convolution followed by batch norm, for any weights, groups, bias or none, and statistics. |
| ConvFusion.Layer.FuseOne | yolov5/models/yolo.py:125-127 | Fusing a layer keeps what its forward computes. |
| ConvFusion.Fuse | yolov5/models/yolo.py:121-129 | Fusing a model in place keeps what every module computes; every convolution ends fused, no other module is touched. |
| TargetAssignment.BuildTargets | yolov5/utils/loss.py:177-234 | Per layer, the assignments in the source's order. |
| TargetAssignment.AssignedIff | yolov5/utils/loss.py:201-232 | An entry is assigned exactly when it carries a target's image, class and size in grid units, neither side beyond the limit against an anchor's, and the cell of its centre or one neighbour on the nearer side, with the centre relative to it. |
| TargetAssignment.Source | yolov5/utils/loss.py:205-222 | Every assignment comes from a target, a fitting anchor and one of the five copies its centre allows ... |
| TargetAssignment.FittingIsAssigned | yolov5/utils/loss.py:205-217 | ... and every such combination is assigned. |
| TargetAssignment.AxisOffset | yolov5/utils/loss.py:211-230 | Along each axis the stored offset lies strictly inside (-0.5, 1.5). |
| TargetAssignment.ClampIsForEdges | yolov5/utils/loss.py:229 | The clamp changes a cell if and only if the centre is on the far edge and not moved. |
| TargetAssignment.EveryEntryIsReachable | yolov5/utils/loss.py:137-140 | Every assigned cell is in the grid, sizes are below four times the anchor, and sigmoids in (0, 1) exist that decode to the stored box. |
| TargetAssignment.AtMostThreeCells | yolov5/utils/loss.py:211-217 | A target goes to at most three different cells per anchor and layer. |
| TargetAssignment.SameCellTwiceIff | yolov5/utils/loss.py:213-217 | It is put twice into the same cell if and only if its centre lies on a grid line with more than a cell beyond it, or on the far edge of a grid wider than one. |
| TrafficLight.SumoTrafficLight.constructor | scripts/netconvert_carla.py:232-240 | An empty light. |
| TrafficLight.SumoTrafficLight.AddLandmark | scripts/netconvert_carla.py:288-318 | Adds the connection and its parameter unless the same connection is known; says which. |
| TrafficLight.IncludeIs | scripts/netconvert_carla.py:295-318 | A landmark whose two roads and lanes are known changes nothing; any other adds its connection and parameter, under the number of connections or the index given. |
| TrafficLight.SumoTrafficLight.AddPhase | scripts/netconvert_carla.py:269-274 | Appends a phase with the given or default bounds, successor and name. |
| TrafficLight.PhasesAre | scripts/netconvert_carla.py:250-274 | The default program gives 42 seconds of green, 3 of yellow and 3 of red, over all links, other fields at their defaults. |
| TrafficLight.SlotIs | scripts/netconvert_carla.py:262-263 | A link index counts from the front of the list or, if negative, from its end. |
| TrafficLight.AllNumbered | scripts/netconvert_carla.py:301-318 | After any calls with the default index, link indices are exactly 0 .. n - 1 over different connections, with one parameter each. |
| TrafficLight.SumoTrafficLight.Paint | scripts/netconvert_carla.py:256-263 | A road's green and yellow states, or failure on an index outside the list (negative ones count from the end). |
| TrafficLight.SumoTrafficLight.AddRoad | scripts/netconvert_carla.py:256-267 | Appends one road's three phases, or nothing when an index is outside the list. |
| TrafficLight.SumoTrafficLight.GenerateDefaultProgram | scripts/netconvert_carla.py:250-267 | Appends green, yellow and all-red phases for each incoming road once, in some order; succeeds if and only if every index is within the list. |
| TrafficLight.SignalIs | scripts/netconvert_carla.py:256-267 | What each phase shows each link. |
| TrafficLight.OneGreenThenYellow | scripts/netconvert_carla.py:260-267 | With numbered links, each link is green in exactly one phase, yellow in the next and red in all others. |
| TrafficLight.RoadsMeetIffLinksShared | scripts/netconvert_carla.py:260-263 | Two incoming roads are non-red together in some phase if and only if connections of theirs share a link. |
| TrafficLight.NumberedIsSafe | scripts/netconvert_carla.py:250-267 | With numbered links writing stays in bounds and no two roads are ever non-red together. |
| TrafficLight.AllRedBetween | scripts/netconvert_carla.py:265-267 | Between non-red phases of two roads there is a phase that is red for all. |
| TrafficLight.ExplicitIndicesCanClash | scripts/netconvert_carla.py:295-302 | With explicit indices two landmarks can share a link and two roads be green together. |

## Left out

- gRPC, retries, threads, protobuf encoding, logging and time stamps: messages are values and pushes are reliable.
- CARLA, SUMO, vehicle control and perception: a step's outcome (arrived or not, its duration) is arbitrary.
- Update handlers that straddle a `Server_DoTick`, and the unlocked `push_back` for the spectator (ecloud_server.cc:260): the code guarantees nothing there.
- A vehicle's awaits inside registration before its index is known, and the spectator's position reports.
- Registration handlers that straddle the orchestrator's first tick, and the tests that end their first calls (REGISTERING), which cannot see all replies before their own car's: `SplitRegister` has the second calls and one drain.
- The scenario scripts other than ecloud_edge_16_car.py, and edge periods that are not exact multiples of the world period. The barrier results hold for any orders.
- A server process reused for a second scenario: runs start from a fresh server whose scenario has been started.
- In the split-step model, updates in states other than TICK_OK, TICK_DONE and DEBUG_INFO_UPDATE, which only a first waypoint tick produces.
- Modules that raise on what they are given or fed (GhostBottleneck and C3Ghost where an odd count does not match their shortcut, Expand where the gain does not divide, a Concat of other shapes): the channel results say what a module yields if it runs. Also `sorted(save)`, which does not matter to membership; module lists in which a Concat or Detect row is repeated are outside the channel results, as their second module raises.
- TensorFlow's `parse_model` (its channel list is offset differently).
- Merge-NMS (disabled), the NMS time limit, a-priori labels for autolabelling, and candidates capped by anything but score.
- How true positives vary with the threshold when a detection has the same IoU with two labels of its class: the sort's order decides.
- The IoU values themselves (`box_iou`) in matching and the confusion matrix: any matrix of reals is allowed.
- `ap_per_class`: precision, recall and F1 at the best confidence, their curves and plots; NaN and the eps terms of F1.
- `ConfusionMatrix.tp_fp`, normalisation and plotting.
- Convolution dilation: `Conv` never sets it, and `fuse_conv_and_bn` does not copy it.
- Batch norm in training mode; at inference, eps is positive and variances are not negative.
- The activation function and the convolutions around SPP, SPPF and Focus: any function, the same on both sides.
- Losses' values, gradients and training; autoanchor; the sigmoid itself, of which only the range (0, 1) is used.
- Targets other than those with centres in [0, 1] and non-negative sizes, and an anchor_t above 4, for which the decoder's range is too small.
- `SumoTopology`, XML output and the parsing of landmarks; `get_sumo_id` with several ids.
- The list and set objects Python mutates in place are fields reassigned to new values; tensors are values, so aliasing of views is modelled only where it shows (the clamp in `build_targets`).
