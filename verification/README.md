# Verified model of the live-update path

The server keeps many browsers and headsets in step with a moving graph and with the agents that work on
it. Six stateful components in `src/actors` do that work. This project models each as steps over explicit
state and proves what holds over every run of those steps.

- **Acknowledged position streaming** (`PositionStream`, `StreamRounds`, `StreamLink`, `StreamFreshness`,
  `StreamLimits`): one client's stream, its rounds, the two ends of the link, when an empty plan means a
  current client, and where the promises stop.
- **The client coordinator** (`ClientCoordinator`, `ClientIsolation`, `ClientLinks`): the registry of clients
  that pumps those streams through a visibility policy, and the link behind each client.
- **The real-agent roster feed** (`KeyOrder`, `RosterModel`, `RosterReplay`, `RosterCalls`, `RosterRuns`,
  `RosterFeed`, `RosterClocks`, `RosterAgents`): rosters in, frames out, and the proof that folding the frames
  gives the roster back; what each stamp and each field of each agent is.
- **Decision elevation** (`DecisionElevation`, `ElevationBacking`, `ElevationCases`, `ElevationCare`,
  `ElevationSafety`, `ElevationLimits`, `ElevationExact`, `ElevationSeen`, `ElevationStatus`): a durable case
  lifecycle in which a crash can fall between any two writes; what every step keeps, what holds over every run,
  and exactly when; and what each status of a row goes back to.
- **The beam forwarder** (`BeamCoalescer`, `BeamScript`): a bounded buffer under backpressure, and what it takes
  from a script of hub answers.
- **The demo director** (`DemoModel`, `DemoDirector`): timed agents walking a graph.
- **Voice demand** (`ConceptIndex`, `VoiceDemand`): a maximal-munch scanner and a decaying score.

Objects whose methods update fields in the program are classes here (`ClientStream`, `ClientManager`,
`RosterFeed`, `BeamCoalescer`, `DemoDirector`, `VoiceDemandLedger`), each method proved against a function
or relation on values; the properties of whole runs are lemmas about those functions. Times are natural
numbers of milliseconds or seconds, positions and scores are reals, machine widths that matter (32-bit
clocks, saturating counters) are written out.

## Results that differ from the documentation

- `plan` documents that nothing to send means the client holds the latest state. It means that the
  *acknowledged* state is current: a client can be stale with an empty plan and nothing in flight
  (`StreamLimits.QuietButStale`). The exact condition is that every record of the node handed over since
  the acknowledged one is still what would be sent now (`StreamFreshness.QuietIsCurrentIff`); the server
  could check it if it kept a record of what it handed over, which `acknowledge` drops.
- The longest-waiting share of a chunk is empty for chunk sizes 1 to 3, and then a node can wait for ever
  (`StreamLimits.StarvedBelowFour`); from 4 on the wait is bounded (`StreamRounds.BoundedWait`). The
  settings API accepts 100 and more.
- One pull request per case, no expiry of a case that tracks one, a row that tells what was done, and a pull
  request that carries the durable draft: the code keeps these promises only if a case is opened at the right
  moment. `ElevationCare.MayOpen` says when that is, and it is exact. After every run that opened the case
  only at such moments, a trigger which the actor accepts can break the promise if and only if it comes at
  another moment (`ElevationExact.OpeningHarmsIff`), for each of the four promises:
  - *At most one pull request* (`ElevationSafety.AtMostOneAttempt`): the case was never proposed, the boot has
    read the open cases and has not this one still to resume or expire, no question about it is open, and no
    future is opening it, publishing it, recording an approval of it, creating its pull request, or about to
    claim it while its row says `approved`.
  - *A proposed case is never expired* (`ExpiredWasNeverProposed`): nor is any future expiring it. Expiry does
    not mark the decision as seen and ends with an unconditional update, so a case opened meanwhile can be
    approved, proposed and tracked, and is then expired with its pull request open
    (`ElevationLimits.OpenedWhileExpiring`, from a run in `ElevationExact.ExpiryUnderWay`). For a case at leisure
    that happens if and only if an expiry lies ahead (`ElevationExact.TrackedIsExpiredIff`).
  - *The row tells what was done* (`StatusTells`, `ProposedForGood`): nor is any future about to write
    `publish_failed`, `rejected` or `reviewed`.
  - *What is proposed is the durable draft* (`ProposedIsTheDraft`): nor does a future left over from an earlier
    opening carry another draft.

  The actor's own guard, its list of decisions seen, covers part of this: as long as the hash in a case's id
  names one decision, an accepted trigger comes at the right moment if and only if the case was never
  proposed, the boot has read and has not this case still to deal with, and no future is writing or publishing
  it, nor, where that matters, expiring it or giving it up (`ElevationSeen.AcceptedMayOpenIff`). With no
  condition at all there are never more pull requests than committed approvals
  (`ElevationBacking.AttemptsNeedApprovals`).
- An approval worded otherwise than `approve` starts no pull request until the process dies or the case is
  opened again (`ElevationSafety.SynonymWaits`), unless a future left over from an earlier opening takes it up
  (`ElevationExact.SynonymTakenUp`); but the next boot opens one (`ElevationLimits.SynonymIsProposedAtReboot`).
- Timestamps that should strictly increase do so exactly below the wrap of the 32-bit clock
  (`RosterReplay.StampIsLegal`, `DemoModel.NextTsIncreasesIff`).
- Ids and names of agents stay inverse to each other exactly while no more agents are live than the id band
  holds (`RosterRuns.AppliedValidIff`).
- Keep-alives do not cover a resting demo agent. A rest drawn d long that begins κ after the agent's last
  event, with ticks of dt, is silent for exactly κ + dt·⌈d/dt⌉, so it outlasts the 30 s for which clients
  keep evidence if and only if that sum does (`DemoModel.RestOutlastsIff`); from every start the first agent
  can reach 30.75 s (`DemoDirector.FirstAgentCanBeGivenUp`).

## Model

| member | source | states |
|---|---|---|
| `PositionStream.PlanUnique` | src/actors/position_stream.rs:125-181 | the declarative plan (k − fair most displaced, then the fair longest-waiting of the rest, sorted by displacement and id) determines one list, so hash-map order cannot show through |
| `PositionStream.PlanSize` | src/actors/position_stream.rs:160-181 | a plan holds exactly min(k, candidates) nodes |
| `PositionStream.PlanCongruent` | src/actors/position_stream.rs:125-157 | planning depends on the visibility test only through its answers |
| `PositionStream.PlanEmptyIffCurrent` | src/actors/position_stream.rs:118-157 | nothing is planned if and only if every visible node is acknowledged within the threshold with equal analytics |
| `PositionStream.DistanceLaws` | src/actors/position_stream.rs:87-90 | the distance is zero exactly between equal points, at least the square of what any coordinate differs by, the square of a move along one axis, and additive over the axes |
| `PositionStream.QuietInCoordinates` | src/actors/position_stream.rs:118-157 | with nothing planned, every shown node is acknowledged with its present analytics and within the threshold in x, in y and in z |
| `PositionStream.MoveIsCandidate` | src/actors/position_stream.rs:138-150 | a node that moved along any one axis by more than the threshold is a candidate |
| `PositionStream.PlanOrder` | src/actors/position_stream.rs:156-180 | a plan lists what the client never had by id, then what it is farthest off in, ties by id |
| `PositionStream.FairShareIsQuarter` | src/actors/position_stream.rs:166-169 | the share reserved for the longest-waiting is a quarter of the chunk, rounded down |
| `PositionStream.SelectFirst` | src/actors/position_stream.rs:164-176 | partial selection: a permutation whose first n are sorted and precede all the rest |
| `PositionStream.Cut` | src/actors/position_stream.rs:164-178 | the two-stage cut of a full chunk chooses exactly the declared nodes, all indices in range |
| `PositionStream.WaitDoubles` | src/actors/position_stream.rs:97-101 | the wait is one timeout, doubled by each consecutive timeout up to eight |
| `PositionStream.WaitsUntil` | src/actors/position_stream.rs:104-109 | nothing new is sent exactly until one timeout after the last chunk, doubled once for each timeout before it, three times at most |
| `PositionStream.AckKeepsNewer` | src/actors/position_stream.rs:217-228 | an honoured acknowledgement leaves in flight exactly the chunks sent after it, in order |
| `PositionStream.ClientStream.Plan` | src/actors/position_stream.rs:125-181 | returns the plan of the stream for every chunk size |
| `PositionStream.ClientStream.RecordSent` | src/actors/position_stream.rs:185-214 | the new state after a send: bounded in-flight list, timeout counted if the last chunk went unanswered |
| `PositionStream.ClientStream.Acknowledge` | src/actors/position_stream.rs:217-240 | the new state after an acknowledgement; an unknown number changes nothing |
| `PositionStream.ClientStream.RetainNodes` | src/actors/position_stream.rs:242-246 | forgets exactly the nodes that fail the test |
| `StreamRounds.AckOfLastSend` | src/actors/position_stream.rs:185-240 | acknowledging the chunk just sent commits its records and empties the in-flight list |
| `StreamRounds.SyncConverges` | src/actors/position_stream.rs:125-240 | in a fixed scene with every chunk acknowledged, everything is delivered after exactly ⌈n/k⌉ rounds, each initial candidate exactly once |
| `StreamRounds.PassedOver` | src/actors/position_stream.rs:164-178 | each round that passes a candidate over serves at least the fair share of the nodes older than it |
| `StreamRounds.BoundedWait` | src/actors/position_stream.rs:125-240 | for k ≥ 4, a node that stays a candidate is sent within ⌊older / ⌊k / 4⌋⌋ + 1 rounds whatever the positions do |
| `StreamLink.StepKeepsInv` | src/actors/position_stream.rs:185-246 | send, loss, delivery, late or repeated acknowledgement and forgetting keep the belief invariant |
| `StreamLink.RunKeepsInv` | src/actors/position_stream.rs:185-246 | over every run: each acknowledged record is what its chunk carried, that chunk was acknowledged, everything in flight is newer than everything acknowledged |
| `StreamLink.BeliefNeverAhead` | src/actors/position_stream.rs:217-240 | the client holds what the server believes, or something newer |
| `StreamLink.BeliefExactIff` | src/actors/position_stream.rs:217-240 | belief and client agree on a node if and only if the client received no newer chunk with that node |
| `StreamLink.BeliefNeverGoesBack` | src/actors/position_stream.rs:229-240 | the acknowledged sequence number of a node never decreases, not even across forgetting it |
| `StreamLink.RepeatedAckIgnored` | src/actors/position_stream.rs:217-228 | an acknowledgement of a chunk never sent or already honoured changes nothing |
| `StreamLink.CommitMonotone` | src/actors/position_stream.rs:229-240 | committing loses no node and never replaces a newer record by an older one |
| `StreamFreshness.QuietMeansCurrent` | src/actors/position_stream.rs:118-181 | with an empty plan, a shown node whose newer records are all still what would be sent is current at the client |
| `StreamFreshness.DeliveriesVary` | src/actors/position_stream.rs:185-240 | the same server state comes about with any set of received chunks that includes the honoured ones |
| `StreamFreshness.QuietCanBeStale` | src/actors/position_stream.rs:118-240 | if a newer record carried the node elsewhere, some run with the same server state and the same chunks leaves the client stale |
| `StreamFreshness.QuietIsCurrentIff` | src/actors/position_stream.rs:118-240 | with an empty plan, a node is current at the client in every run with this server state if and only if every record of it handed over since the acknowledged one is still what would be sent |
| `StreamLimits.SilentRate` | src/actors/position_stream.rs:97-109 | the n-th send (n ≥ 4) to a client that never answers is no earlier than first + 7T + 8T(n − 4) |
| `StreamLimits.SilentState` | src/actors/position_stream.rs:185-214 | after n unanswered sends the in-flight list holds the last min(n, 8) |
| `StreamLimits.AckResetsWait` | src/actors/position_stream.rs:225-240 | an honoured acknowledgement resets the wait to one timeout |
| `StreamLimits.QuietButStale` | src/actors/position_stream.rs:118-181 | a run of planned sends that ends with an empty plan, nothing in flight and a client beyond the threshold |
| `StreamLimits.StarvedBelowFour` | src/actors/position_stream.rs:164-178 | for chunk sizes 1 to 3, runs of any length from a fresh stream in which a candidate is never sent |
| `ClientCoordinator.KeptPositions` | src/actors/client_coordinator_actor.rs:465-502 | the kept actions are exactly the visible positions of the batch, in increasing order |
| `ClientCoordinator.LookUpHidden` | src/actors/client_coordinator_actor.rs:563-577 | the memoised hidden set of an identity is the one computed afresh |
| `ClientCoordinator.FrameFor` | src/actors/client_coordinator_actor.rs:465-502 | the memoised agent-action frame of an identity is its own visible sublist |
| `ClientCoordinator.TakeTurn` | src/actors/client_coordinator_actor.rs:563-626 | one client's turn: forget, plan, number, offer, and record the chunk only if it was delivered |
| `ClientCoordinator.ClientManager.RegisterClient` | src/actors/client_coordinator_actor.rs:345-373 | a fresh stream under an id never used before |
| `ClientCoordinator.ClientManager.UnregisterClient` | src/actors/client_coordinator_actor.rs:428-443 | removes exactly that client |
| `ClientCoordinator.ClientManager.Acknowledge` | src/actors/client_coordinator_actor.rs:629-636 | acknowledges on that client's stream only and returns how many nodes the chunk carried |
| `ClientCoordinator.ClientManager.PumpOne` | src/actors/client_coordinator_actor.rs:548-626 | a pump of one client with memoised visibility is a pump with its own |
| `ClientCoordinator.ClientManager.PumpAll` | src/actors/client_coordinator_actor.rs:506-526 | every client has one turn; nothing goes out while the policy is on but unloaded |
| `ClientCoordinator.SettledAsAnswered` | src/actors/client_coordinator_actor.rs:506-526 | a pump reports for each frame what its mailbox answered: how many went, which clients were full and which closed, in order |
| `ClientCoordinator.ClientManager.PumpClient` | src/actors/client_coordinator_actor.rs:529-546 | the same for one client, with the outcome of the one frame offered |
| `ClientCoordinator.ClientManager.BroadcastAgentActions` | src/actors/client_coordinator_actor.rs:465-502 | each client is offered exactly the order-preserving sublist it may see, no frame when that is empty, none at all while fail-closed; each offered client is counted once, under the outcome its mailbox gave |
| `ClientIsolation.FrameShowsOnlyVisible` | src/actors/client_coordinator_actor.rs:563-626 | every record of a frame is a cached node as it is now; with the client's filter on an allowed one, and with the policy on not a private one of anybody else |
| `ClientIsolation.VisibleIffMayKnow` | src/actors/client_coordinator_actor.rs:563-582 | a node passes the visibility test of a turn if and only if the client's filter allows it and no private record of it belongs to anybody but the session's identity |
| `ClientIsolation.TurnCandidates` | src/actors/client_coordinator_actor.rs:563-601 | a turn weighs up exactly the cached nodes the client may be told about and is not up to date on |
| `ClientIsolation.TurnSilentIff` | src/actors/client_coordinator_actor.rs:597-606 | a turn says nothing if and only if the client is up to date on everything it may be told about |
| `ClientIsolation.FrameIsFull` | src/actors/client_coordinator_actor.rs:599-612 | a frame carries min(chunk size, news) nodes, each once |
| `ClientIsolation.TurnForgets` | src/actors/client_coordinator_actor.rs:590-597 | a turn forgets exactly what left the graph and what the client may be told no more |
| `ClientIsolation.ForgottenIsNews` | src/actors/client_coordinator_actor.rs:590-601 | whatever a client holds no acknowledged record of is news once it may be told |
| `ClientIsolation.PumpedUnlessWaiting` | src/actors/client_coordinator_actor.rs:557-562 | a pump leaves a client alone exactly as long as its last chunk may still be answered |
| `ClientIsolation.PrivateNodeStaysPrivate` | crates/visionclaw-domain/src/utils/visibility_filter.rs:119-153 | with the policy on, a private node reaches no session but its owner's |
| `ClientIsolation.UndeliveredChangesNothing` | src/actors/client_coordinator_actor.rs:603-626 | a refused chunk leaves the in-flight list, the backoff and the set of plans unchanged |
| `ClientLinks.TurnIsLinkSteps` | src/actors/client_coordinator_actor.rs:548-626 | a coordinator turn is, on the client's link, an enabled forgetting step and, if the chunk was handed over, an enabled send of exactly that chunk |
| `ClientLinks.EveryClientIsLinked` | src/actors/client_coordinator_actor.rs:949-981 | in every run of joins, leaves, pumps, arrivals and acknowledgements, every client's stream is the server's end of a link that link steps reach, so every theorem about links holds for it |
| `ClientLinks.EveryBeliefIsSound` | src/actors/client_coordinator_actor.rs:629-636 | in every such run every client holds what the server believes it holds, or something newer |
| `ClientIsolation.RunIsSound` | src/actors/client_coordinator_actor.rs:949-981 | over any interleaving of joins, leaves, pumps and acknowledgements no number is in flight for two clients |
| `ClientIsolation.FramesIncrease` | src/actors/client_coordinator_actor.rs:949-981 | chunk numbers strictly increase over the whole run |
| `ClientIsolation.UntouchedForLong` | src/actors/client_coordinator_actor.rs:1469-1500 | however long the others join, pump and acknowledge, what is kept about a client they do not concern is unchanged and it gets no frame |
| `KeyOrder.SortKeys` | src/actors/agent_roster_feed.rs:340-355 | sorting by (date, key) gives the one ordered listing of the keys |
| `KeyOrder.OrderedInOrder` | src/actors/agent_roster_feed.rs:340-360 | that listing is in order of date, then key |
| `KeyOrder.LeqIff` | src/actors/agent_roster_feed.rs:357-358 | the key order is lexicographic: a prefix first, else the smaller character where the keys part |
| `RosterReplay.AllocateFree` | src/actors/agent_roster_feed.rs:160-174 | the wrapping probe ends inside the real-agent band, on a free id if and only if there is one |
| `RosterAgents.AllocateIsNext` | src/actors/agent_roster_feed.rs:159-174 | a new agent gets the id its key hashes to, or the next free one above it, around the end of the band |
| `RosterReplay.RoomIffFew` | src/actors/agent_roster_feed.rs:160-174 | the band has a free id if and only if fewer than 2^25 are in use |
| `RosterReplay.StampIsLegal` | src/actors/agent_roster_feed.rs:176-186 | a stamp is later than what a client last saw of the agent if and only if the clock does not wrap |
| `RosterClocks.StampIsLeast` | src/actors/agent_roster_feed.rs:176-186 | below the wrap a stamp is the least clock value that is not before now and later than the agent's last; at the wrap there is none |
| `RosterClocks.RunIsOnTime` | src/actors/agent_roster_feed.rs:176-391 | in every run every frame of every call carries that least value for the time of its call |
| `RosterClocks.NoFrameIsEarly` | src/actors/agent_roster_feed.rs:188-391 | so no roster frame, keep-alive or joined action is dated before its call, unless the agent's clock was at its end |
| `RosterReplay.DoFollows` | src/actors/agent_roster_feed.rs:188-391 | each primitive change keeps names and ids inverse, and its frame turns a view of the old roster into a view of the new |
| `RosterCalls.OverflowIsOldest` | src/actors/agent_roster_feed.rs:339-355 | the overflow is exactly the excess over 64, and nobody kept is older by (done_at, key) than anybody let go |
| `RosterCalls.ClearedShape` | src/actors/agent_roster_feed.rs:247-273 | who remains after departures, retirements and the bound, agent by agent |
| `RosterRuns.AppliedShape` | src/actors/agent_roster_feed.rs:226-316 | the whole roster after `apply`, agent by agent, whatever the order of work |
| `RosterRuns.AppliedFollows` | src/actors/agent_roster_feed.rs:226-316 | the frames of `apply` replay a view of the old roster into a view of the new |
| `RosterRuns.AppliedValidIff` | src/actors/agent_roster_feed.rs:160-174 | names and ids stay inverse if and only if everybody who stays or is named fits into the band |
| `RosterRuns.AppliedHeldBound` | src/actors/agent_roster_feed.rs:339-355 | after every `apply` at most 64 agents are held |
| `RosterRuns.OthersStay` | src/actors/agent_roster_feed.rs:247-300 | everyone not sent away keeps id and owner; only the producer's own unnamed agents are marked as left |
| `RosterAgents.NamedAgent` | src/actors/agent_roster_feed.rs:276-290 | every field of an agent that stays and is named: the line's data, done by its status, dated when it became so, the last work node listed |
| `RosterAgents.UnnamedAgent` | src/actors/agent_roster_feed.rs:247-268 | every field of an agent that stays unnamed: its producer's have left and are done from now on, all others are as they were but for a listed node |
| `RosterAgents.NewAgent` | src/actors/agent_roster_feed.rs:291-312 | every field of an agent a roster brings: its producer, its line, done or not, dated now, the first work node listed |
| `RosterAgents.NobodyElse` | src/actors/agent_roster_feed.rs:226-316 | nobody is there whom the roster neither names nor lets stay |
| `RosterAgents.SentAwayIff` | src/actors/agent_roster_feed.rs:247-273 | who is sent away: the producer's own that were done, had not left and are named no more, and the overflow |
| `RosterAgents.LinesAreFirst` | src/actors/agent_roster_feed.rs:239-245 | the lines that count are the first of each non-empty id |
| `RosterAgents.FinishedIff` | src/actors/agent_roster_feed.rs:73-79 | an agent has finished exactly if its status spells completed, failed or done in any mixture of cases |
| `RosterRuns.AppliedSaysRetired` | src/actors/agent_roster_feed.rs:247-273 | `retired` is said of exactly the producer's unnamed done agents and the oldest beyond the bound |
| `RosterRuns.NamingsSay` | src/actors/agent_roster_feed.rs:274-314 | every line that brings news is announced as the agent now is, work node included |
| `RosterRuns.TickedShape` | src/actors/agent_roster_feed.rs:323-337 | a tick changes no agent and retires nobody |
| `RosterRuns.TickDescribesAll` | src/actors/agent_roster_feed.rs:323-337 | a due keep-alive describes every live agent once, in key order |
| `RosterAgents.KeepAliveIsDue` | src/actors/agent_roster_feed.rs:323-337 | ticks are silent until 5 s have passed since the last keep-alive, and the very tick in which they have describes every live agent |
| `RosterRuns.JoinedFollows` | src/actors/agent_roster_feed.rs:375-391 | a joined hub action is stamped on the agent's clock and keeps the view |
| `RosterAgents.JoinedAgent` | src/actors/agent_roster_feed.rs:375-391 | a joined action carries the agent's wire id and its own target, which becomes the agent's work node unless it is none; nothing else changes |
| `RosterAgents.JoinedNodeIsAnnounced` | src/actors/agent_roster_feed.rs:375-391 | the next keep-alive of the agent names the node the joined action was about |
| `RosterRuns.RunReplays` | src/actors/agent_roster_feed.rs:188-391 | after every call of every run, folding all frames gives exactly the live agents, their states, names and clocks; `retired` only after `done`, once per lifetime; stamps strictly increase below the wrap |
| `RosterRuns.RunHeldBound` | src/actors/agent_roster_feed.rs:339-355 | at most 64 agents are held after every call of every run |
| `RosterRuns.SameRosterIsSilent` | src/actors/agent_roster_feed.rs:226-316 | the same roster from the same producer again, after any ticks and joins, sends nothing |
| `RosterFeed.RosterFeed.AllocateId` | src/actors/agent_roster_feed.rs:160-174 | the probing loop terminates, on a free id if and only if the band has one |
| `RosterFeed.RosterFeed.Stamp` | src/actors/agent_roster_feed.rs:176-186 | the stamp and the clock table, later than the last unless the clock wraps |
| `RosterFeed.RosterFeed.Apply` | src/actors/agent_roster_feed.rs:226-316 | performs `Applied`; bound kept; silent on a settled roster |
| `RosterFeed.RosterFeed.Tick` | src/actors/agent_roster_feed.rs:323-337 | performs `Ticked`; agents unchanged, nobody retired |
| `RosterFeed.RosterFeed.RetireOverflow` | src/actors/agent_roster_feed.rs:339-355 | retires exactly the overflow |
| `RosterFeed.RosterFeed.RetireAll` | src/actors/agent_roster_feed.rs:357-370 | one `retired` frame each in key order, and the ids freed |
| `RosterFeed.RosterFeed.Join` | src/actors/agent_roster_feed.rs:375-391 | performs `Joined`; joins if and only if the task is on the roster |
| `DecisionElevation.PlanIsSafe` | src/actors/decision_elevation_actor.rs:824-851 | an application in doubt is left alone, a tracked pull request is never expired, and each action matches its case's status and age |
| `DecisionElevation.PlanIsComplete` | src/actors/decision_elevation_actor.rs:824-851 | every open case not in doubt gets an action |
| `ElevationBacking.AttemptsNeedApprovals` | src/actors/decision_elevation_actor.rs:284-393 | in every run, crashes and reopened cases included, pull requests never outnumber committed approvals |
| `ElevationCases.RunIsGrounded` | src/adapters/decision_elevation_store.rs:257-275 | in every run, a row in git, a recorded pull request and everything that tracks one follow an attempt; `elevating` always has its url; whatever works on a case knows its row |
| `ElevationCases.ApplyCarried` | src/actors/decision_elevation_actor.rs:398-442 | reconciliation asks about a case it read, or claims it, or expires it, and only one of these |
| `ElevationCare.StepKeepsInv` | src/actors/decision_elevation_actor.rs:284-479 | every step of every future, boot and crash keeps the invariant of a case, at each degree of care, if it opens the case only when it may be |
| `ElevationSafety.AtMostOneAttempt` | src/actors/decision_elevation_actor.rs:284-393 | a case that is opened only when it may be is proposed at most once, on a committed approval, however other cases are opened and wherever the process dies |
| `ElevationSafety.ExpiredWasNeverProposed` | src/actors/decision_elevation_actor.rs:816-851 | if besides it is not opened while it is being expired, an expired case was never proposed and tracks no pull request |
| `ElevationSafety.AppliedForGood` | src/actors/decision_elevation_actor.rs:398-479 | a claimed case that nobody opens afresh stays claimed, on the same claim and approval: it is never replayed, re-decided or expired |
| `ElevationStatus.EveryStatusHasCause` | src/actors/decision_elevation_actor.rs:901-1000 | in every run every row says what the last step that wrote it brought about: published that a poll found the pull request merged, abandoned that one found it closed unmerged, and so on for each of the ten statuses |
| `ElevationStatus.VerdictIsWritten` | src/actors/decision_elevation_actor.rs:901-916 | a poll that finds a pull request merged writes published, one that finds it closed unmerged writes abandoned, and nothing else of the row |
| `ElevationStatus.DecidedByAHuman` | src/adapters/sqlite_enrichment_repository.rs:223-235 | a row that says approved, rejected or reviewed goes back to a human who gave such an answer on that case |
| `ElevationStatus.AnswerIsWritten` | src/adapters/sqlite_enrichment_repository.rs:604-682 | an answer whose event was not recorded before is what the row says next |
| `ElevationStatus.EventCountsOnce` | src/adapters/sqlite_enrichment_repository.rs:604-660 | the same signed event again writes nothing, whatever it says |
| `ElevationStatus.RowWasTriggered` | src/actors/decision_elevation_actor.rs:660-692 | a row keeps the decision, the draft and the opening time of one and the same trigger on its case |
| `ElevationStatus.UrlWasCreated` | src/actors/decision_elevation_actor.rs:358-371 | a row that says elevating names the url with which a pull request for that case was created |
| `ElevationStatus.SettledIsDropped` | src/actors/decision_elevation_actor.rs:988-996 | what a poll found settled is tracked no more when the poll ends, whatever happens in between |
| `ElevationStatus.TrackedUntilFound` | src/actors/decision_elevation_actor.rs:988-996 | a tracked case is dropped only by the end of a poll that found it settled, or of the process |
| `ElevationStatus.PollAsksAll` | src/actors/decision_elevation_actor.rs:933-942 | a poll asks about every case tracked when it starts |
| `ElevationStatus.SettledOnce` | src/actors/decision_elevation_actor.rs:941-988 | and about none again that it found settled |
| `ElevationStatus.TrackedAgainAtBoot` | src/actors/decision_elevation_actor.rs:404-418 | a tracked case read back at boot is tracked again, however old |
| `ElevationStatus.CreatedIsTracked` | src/actors/decision_elevation_actor.rs:358-386 | a created pull request is tracked by its process even if stamping the row fails |
| `ElevationStatus.UnpublishedIsGivenUp` | src/actors/decision_elevation_actor.rs:690-720 | a case that could not be published is not asked about and goes on to be given up durably |
| `ElevationSafety.ProposedForGood` | src/actors/decision_elevation_actor.rs:284-393 | a case once proposed stays claimed, on the same claim and approval, in every later state |
| `ElevationSafety.StatusTells` | src/adapters/decision_elevation_store.rs:69-98 | if it is not opened while any end of it is about to be written: an unclaimed row means never proposed, a row in git means proposed |
| `ElevationSafety.ProposedIsTheDraft` | src/actors/decision_elevation_actor.rs:284-371 | if besides no future carries another draft of it, what was proposed is the durable draft |
| `ElevationSafety.SynonymWaits` | src/actors/decision_elevation_actor.rs:724-748 | after an answer not worded `approve`, no pull request for the case until a crash or a new trigger on it, unless the answer means approval and a leftover future is there to claim it |
| `ElevationExact.OpeningHarmsIff` | src/actors/decision_elevation_actor.rs:586-719 | after any run careful about a case, every accepted trigger on it can break what the care is for (one pull request; no expiry of a proposed case; a row that tells; the durable draft) if and only if the case may not be opened |
| `ElevationSeen.AcceptedMayOpenIff` | src/actors/decision_elevation_actor.rs:586-599 | if all triggers on a case name one decision, the guard leaves exactly this to mind: a case proposed before, a boot that has not read or not dealt with it, and futures writing, publishing, expiring or giving it up |
| `ElevationSeen.AcceptedWithinBudget` | src/actors/decision_elevation_actor.rs:586-599 | a trigger is accepted only for a decision not seen in this session and with fewer than 16 questions open |
| `ElevationExact.TrackedIsExpiredIff` | src/actors/decision_elevation_actor.rs:816-851 | an accepted trigger on a never proposed case with nothing under way can lead to an expired case with a pull request if and only if it is being expired, or the boot has not read, or has it still to deal with |
| `ElevationExact.ExpiryUnderWay` | src/actors/decision_elevation_actor.rs:431-479 | for every case, a run as careful as can be that ends with the case being expired and a trigger on it accepted |
| `ElevationLimits.OpenedWhileExpiring` | src/actors/decision_elevation_actor.rs:445-479 | from every state that is expiring a case and accepts a trigger on it: the case becomes `elevating` with its pull request tracked, and then `expired` with it |
| `ElevationLimits.OpenedBeforeRead` | src/actors/decision_elevation_actor.rs:853-898 | the same from every state before the boot has read |
| `ElevationLimits.OpenedWhileCarried` | src/actors/decision_elevation_actor.rs:853-898 | the same from every state in which the boot has read the case and not yet dealt with it |
| `ElevationExact.SynonymTakenUp` | src/actors/decision_elevation_actor.rs:724-748 | such an answer is proposed within the process whenever a leftover future is there to claim it |
| `ElevationLimits.ReopenedIsProposedAgain` | src/actors/decision_elevation_actor.rs:586-719 | from every state that accepts a trigger on a case, that case can be proposed once more |
| `ElevationLimits.ApplyingIsInDoubt` | src/actors/decision_elevation_actor.rs:306-384 | the same durable rows can be left with and without a pull request, so `applying` decides nothing |
| `ElevationLimits.OpenQuestionRepeats` | src/actors/decision_elevation_actor.rs:586-749 | a trigger while the question about the case is open can lead to two pull requests |
| `ElevationLimits.ReadBackRepeats` | src/actors/decision_elevation_actor.rs:398-442 | a pending case read back while a future has still to publish it can lead to two pull requests |
| `ElevationLimits.ConcurrentOpeningsRepeat` | src/actors/decision_elevation_actor.rs:586-719 | two triggers before either is published can lead to two pull requests |
| `ElevationLimits.EarlyOpeningRepeats` | src/actors/decision_elevation_actor.rs:853-898 | one trigger before the boot has read can lead to two pull requests, from any such state |
| `ElevationLimits.SynonymIsProposedAtReboot` | src/adapters/sqlite_enrichment_repository.rs:228-235 | an approval not worded `approve` leaves its case durably approved, and the next boot can propose it |
| `BeamCoalescer.BeamConserves` | src/actors/agent_beam_actor.rs:335-434 | batches are disjoint increasing stretches of what was received, of 1 to 256 actions each, the backlog is its end, received = sent + pending + evicted |
| `BeamScript.ReceivedIsHanded` | src/actors/agent_beam_actor.rs:345-395 | for every script, what was received is exactly what the turns taken hand over: the action each begins with and every action of a prefix of its burst, which ends only at the burst's end, at Empty, at a closed hub or at 256 held; and the loop ends with the first turn that finds the hub or the coordinator closed |
| `BeamScript.NothingHandedIsLost` | src/actors/agent_beam_actor.rs:345-434 | a coordinator that never refuses is sent all of that, in order |
| `BeamScript.TurnTakes` | src/actors/agent_beam_actor.rs:345-434 | one turn: what it takes, whether the loop goes on, and that backlog, first action and burst are offered as one batch |
| `BeamScript.AcceptedLeavesNothing` | src/actors/agent_beam_actor.rs:398-408 | after a turn the coordinator accepts nothing is held: a held backlog is offered in every turn |
| `BeamCoalescer.TurnEvicts` | src/actors/agent_beam_actor.rs:136-147 | a turn evicts one action if a new one finds 256 held, else none |
| `BeamCoalescer.EvictionNeedsRefusal` | src/actors/agent_beam_actor.rs:335-434 | an eviction happens only in the turn after a refused dispatch, with the buffer full |
| `BeamCoalescer.NoRefusalNoLoss` | src/actors/agent_beam_actor.rs:335-434 | a coordinator that never refuses gets everything received, in order |
| `BeamCoalescer.BeamCoalescer.Push` | src/actors/agent_beam_actor.rs:136-147 | appends, evicting and counting the oldest exactly at the cap |
| `BeamCoalescer.Forward` | src/actors/agent_beam_actor.rs:335-434 | the loop sends, holds and counts what the model of its turns says |
| `DemoModel.BesideIsEdge` | src/actors/agent_demo_director.rs:151-157 | a neighbour is the other end of a real edge between two labelled nodes, never the node itself |
| `DemoModel.AlwaysOnTrack` | src/actors/agent_demo_director.rs:212-275 | at every moment of every run the target is a labelled node and the last event is less than 31 s old |
| `DemoModel.GapsAreBounded` | src/actors/agent_demo_director.rs:212-275 | consecutive events of an agent are less than 31 s and a tick apart, less than 5 s and a tick at work |
| `DemoModel.FollowCrossesEdge` | src/actors/agent_demo_director.rs:236-252 | moving on from work to a neighbour crosses a real edge to a different node |
| `DemoModel.NextTsIncreasesIff` | src/actors/agent_demo_director.rs:321-323 | the next timestamp is greater than the last if and only if the clock does not wrap |
| `DemoModel.NextTsIsLeast` | src/actors/agent_demo_director.rs:321-323 | it is never before now, and below the wrap the least such time later than the last |
| `DemoModel.PhaseEndsIff` | src/actors/agent_demo_director.rs:212-275 | every phase lasts exactly until the tick in which its duration has passed: waiting to work, work to a neighbour or to rest, a neighbour to rest, rest to work |
| `DemoModel.TickSays` | src/actors/agent_demo_director.rs:220-275 | a tick says the node worked on if five seconds of work passed since the last word, and then the node on which work begins in it |
| `DemoModel.RestOutlastsIff` | src/actors/agent_demo_director.rs:236-275 | the silence around a rest is exactly its age at the start plus the ticks its duration needs, so it reaches 30 s if and only if that sum does |
| `DemoModel.RestEndsIff` | src/actors/agent_demo_director.rs:259-272 | for ticks of any lengths, a rest ends with an event in the very tick in which its drawn duration has passed |
| `DemoModel.RestOutlastsEvidence` | src/actors/agent_demo_director.rs:86-100 | a permitted history of a waiting agent with a silence of 30.75 s |
| `DemoDirector.FirstAgentCanBeGivenUp` | src/actors/agent_demo_director.rs:179-190 | from every start of a director, such a history of its first agent |
| `DemoDirector.ChainIncreases` | src/actors/agent_demo_director.rs:306-332 | timestamps strictly increase within a tick and from the last one on, below the wrap |
| `DemoDirector.ChainIsOnTime` | src/actors/agent_demo_director.rs:306-332 | no event is dated before its tick, and below the wrap none later than it has to be |
| `DemoDirector.StampsIncrease` | src/actors/agent_demo_director.rs:210-275 | over any run of ticks, the timestamps of all agents form one strictly increasing sequence until one reaches the wrap |
| `DemoDirector.EveryAgentHasAHistory` | src/actors/agent_demo_director.rs:210-275 | every run of ticks gives each agent a history, so the bounds on histories hold for each agent of each run |
| `DemoDirector.TopNodes` | src/actors/agent_demo_director.rs:158-170 | the pool is the 80 best-connected nodes, ties by id, best first |
| `DemoModel.PoolIsBest` | src/actors/agent_demo_director.rs:158-170 | no node left out has more usable edges than one in the pool, which is listed by them, ties by id |
| `DemoDirector.BuildAdjacency` | src/actors/agent_demo_director.rs:151-157 | one mention per usable edge in each direction |
| `DemoModel.BesideCounts` | src/actors/agent_demo_director.rs:151-157 | a neighbour is mentioned once for every usable edge to it |
| `DemoDirector.Shuffle` | src/actors/agent_demo_director.rs:175-178 | in place, any order of the same nodes |
| `DemoDirector.NewDirector` | src/actors/agent_demo_director.rs:150-196 | none for a graph without labels; else six waiting agents on candidates, distinct if there are enough |
| `DemoDirector.DemoDirector.Tick` | src/actors/agent_demo_director.rs:212-275 | whatever is drawn, each agent makes a permitted step and the events voice those steps in order |
| `DemoDirector.DemoDirector.NeighbourOf` | src/actors/agent_demo_director.rs:334-348 | draws neighbours until one is a candidate, up to eight times, then takes one more as it comes; the answer is the last drawn, unless it is the node itself |
| `DemoDirector.CandidatesPreferred` | src/actors/agent_demo_director.rs:334-348 | so none exactly for an isolated node, a real neighbour otherwise, and a candidate if and only if one was drawn |
| `ConceptIndex.SplitOfJoin` | src/actors/elevation_voice.rs:34-40 | splitting a joined phrase gives its words back, so string keys compare word lists |
| `ConceptIndex.SplitAtGap` | src/actors/elevation_voice.rs:34-40 | every character that is none of a word parts words, whatever stands around it |
| `ConceptIndex.SplitKeepsWordChars` | src/actors/elevation_voice.rs:34-40 | splitting loses no word character and invents none |
| `ConceptIndex.ConceptOfIff` | src/actors/elevation_voice.rs:53-66 | a phrase of up to four words, not a lone one under four bytes, stands for the last label that reads so |
| `ConceptIndex.Build` | src/actors/elevation_voice.rs:53-66 | the index answers every word list with the last indexable label that reads so |
| `ConceptIndex.HarvestMentions` | src/actors/elevation_voice.rs:87-106 | the scanner finds a maximal munch of the transcript and reports its concepts |
| `ConceptIndex.MunchUnique` | src/actors/elevation_voice.rs:84-106 | disjoint longest phrases with no phrase starting outside them: there is only one such division |
| `ConceptIndex.MentionsDistinct` | src/actors/elevation_voice.rs:95-97 | reported concepts are distinct and are exactly those of the spans |
| `ConceptIndex.MentionsInOrder` | src/actors/elevation_voice.rs:95-97 | concepts are reported in the order in which they are first named |
| `VoiceDemand.UnprunedIsExact` | src/actors/elevation_voice.rs:129-168 | the running score is the sum of the individually faded mentions |
| `VoiceDemand.PruningError` | src/actors/elevation_voice.rs:135-179 | the invariant behind the bound: at most 1/19, and at most 1/19 of the score of a concept on the ledger |
| `VoiceDemand.UnderReportsByANineteenth` | src/actors/elevation_voice.rs:174-179 | however notes and prunes interleave, a concept is never over-reported and under-reported by at most 1/19 |
| `VoiceDemand.PrunedAgainstUnpruned` | src/actors/elevation_voice.rs:135-179 | against a ledger with the same mentions that is never pruned: never above it, and below by at most 1/19 |
| `VoiceDemand.NoteAddsOne` | src/actors/elevation_voice.rs:135-162 | a mention adds one to its concept's score and nothing to any other |
| `VoiceDemand.RecordsStayBounded` | src/actors/elevation_voice.rs:148-161 | after any events a record names each speaker once and keeps one to three excerpts |
| `VoiceDemand.RecordSumsUp` | src/actors/elevation_voice.rs:135-162 | a record sums up all mentions since it was made: their number, the time of the last, every speaker named, and the last three excerpts in order |
| `VoiceDemand.PruneDropsFaded` | src/actors/elevation_voice.rs:174-179 | pruning drops a concept exactly when its reported score is a twentieth or less |
| `VoiceDemand.VoiceDemandLedger.NoteMention` | src/actors/elevation_voice.rs:135-162 | the new ledger: faded score plus one, a new speaker added, the tidied excerpt after the last two |
| `VoiceDemand.VoiceDemandLedger.PruneFaded` | src/actors/elevation_voice.rs:174-179 | drops exactly what has faded to 0.05 or less |

## Left out

- Floating point: positions, thresholds, displacements, decay and scores are reals; NaN and rounding are not modelled.
- Frame encoding and JSON payloads: frames are records; the bytes, their size limits and the client decoders are not part of this model.
- Mailboxes, timers, locks, logging and telemetry: a delivery is one of delivered, refused or closed; time is a parameter.
- Stall eviction of congested clients and client-side reconnection: a client leaving is a step that may happen at any time.
- The reconnect queue of the coordinator: ids are never reused, so its replay is not reached.
- How a client's node filter is evaluated: it is a switch and a given set of allowed ids.
- Graph snapshots, physics and position broadcasting: positions are arbitrary in every round.
- The open-case budget as an invariant: it is checked before an asynchronous insert and not on re-arming.
- The limit on how many open cases a boot reads: any subset of the open cases may be read back.
- The wording of panels, receipts and pull requests: only the draft of a case is modelled.
- Saturation of 64-bit times in the staleness test of a case.
- `RosterFeed.view`, the debounce of roster updates and the monitor's poll backoff.
- Content addressing of agent ids: the hash is an arbitrary function.
- Overflow of the `u32` mention counter; how an excerpt is trimmed and cut to 160 bytes: that is an arbitrary function of the excerpt.
- `parse_elevation_intent`: single-branch text matching.
- `VoiceDemand.PruningError`: assumes that time never runs backwards, as the monotonic clock guarantees.
- The fallback caption of an unlabelled demo target: targets are always labelled.
- The probabilities of the demo's draws: every draw is possible, none is likely.
