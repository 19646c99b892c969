# Proofs about the RIAPS run time

RIAPS runs distributed applications made of actors and components. This project models the parts of its run
time that work as protocols over changing state, and proves what they keep over every run:

- **Group coordination.** A coordinated group member keeps a table of peers fed by heartbeats, takes part in
  leader elections, keeps one connection to the leader, and runs votes when it is the leader.
  `GroupModel.dfy` says what each handler does to the member's data. `GroupThread.dfy` has the member as an
  object whose methods update its fields, each proved against that. `GroupLoop.dfy` is the main loop.
  `GroupNode.dfy` and `GroupPolls.dfy` prove what one member keeps over every run of the loop, whatever the
  group, its component and the clock do. `GroupSystem.dfy` puts members and broadcast packets together;
  `GroupElection.dfy`, `GroupStability.dfy` and `GroupDetector.dfy` prove election safety in a round, leader
  stability and the bounds of the failure detector. `GroupSteps.dfy` says for every role and event what a turn does
  to the member's part in an election and what it broadcasts about it, `GroupTraffic.dfy` what it passes on over
  every run, and `GroupStall.dfy` what becomes of an election that nobody wins.
- **Discovery.** `DiscoNames.dfy` has the keys and client ids that are built and parsed as strings,
  `DiscoService.dfy` one service over the shared database (who owns which entry, who is told of a provider),
  `DiscoRace.dfy` any number of services interleaving at every single database call; `DiscoRefines.dfy` ties the
  calls of an operation to the operation of the one service.
- **Component threads.** `Scheduler.dfy` is the priority scheduler, `PortIndex.dfy` where its priorities come
  from, `Poller.dfy` the poller, the socket tables and the connections of all ports while ports are updated and
  reset and groups come and go.
- **Smaller machines.** `Recovery.dfy` (deployment manager and application database), `Fsm.dfy` (finite-state
  machine components), `Timer.dfy` (timer ports).

The roles of a group member follow section 5.2 of "In Search of an Understandable Consensus Algorithm" (Ongaro
and Ousterhout), but the code differs from it, and the claims here are the ones the code meets: terms may go
down, votes are forgotten when AUTHORITY comes in, and there is no claim of one leader per term outside a round.

Conventions: time is an integer number of microseconds; timeouts are whole milliseconds, truncated as the
source truncates them. What a turn of a loop reads from outside (clock, random draws, messages, results of
system calls) is a parameter. Packets of a group are delivered to a member at most once, in any order, or
never. Methods of classes are proved against functions on values; the lemmas about these functions state what
the source is for. Many lemmas start by hiding definitions their proofs do not need.

What the proofs found out about the code:

- A member that stands for election, or is asked for its vote, loses its leader deadline, and only AUTHORITY and the
  leader's requests and announcements give it another one (`GroupStall.OnlyLeadersAwaken`). So when every member took
  part in an election that nobody won, none of them ever stands again: until another member joins the group has no
  leader, whatever votes, timeouts, heartbeats and farewells come (`GroupStall.LostElectionStalls`, `GroupStall.StallIsForEver`). Two
  members that start, hear each other and time out together get there (`GroupStall.GroupsDoStall`).
- A leader that is deposed by a rival of its term and then receives an AUTHORITY message it sent earlier
  becomes a follower of itself: `isLeader()` is true while the role is FOLLOWER, and its query port is
  connected to its own answer port (`GroupNode.DeposedLeaderFollowsItself`; the exact condition is
  `GroupNode.SelfBeliefLastsUnlessOwnAuthorityReturns`).
- A request for a vote can be accepted and sent to the group when its deadline has already passed: the time it
  took is taken off a deadline that counts from its start. Such a request is only ever answered with a timeout,
  and these are exactly the accepted requests that took more than half of the time they allow
  (`GroupPolls.AcceptedRequestsCanBeDead`).
- Ballots are not tied to voters: a member that votes twice counts as two (`GroupPolls.PollOutcomes` is about the
  ballot that makes the count the number of members).
- `delSub` ends the subscription of a service to a key when the last provider of the key is removed through
  that service, although clients of the service are still enrolled on it: nothing pending announces the next
  provider, stored through another service, to them (`DiscoRace.RemoveLosesTheNextProvider`,
  `DiscoRace.ProvidersDoGetLost`). They hear of nothing under the key before their own service is asked to fetch
  the key, or to insert under it, again (`DiscoRace.DeafUntilAsked`).
- `setupClient` forgets what a client that is already set up had registered; its entries stay in the database
  until somebody unregisters each of them by name (`DiscoServices.ForgetKeepsAccount`).
- `handleUpdate` raises on a client id that does not parse, and the clients after it in the list are not told
  (`DiscoServices.SendsUpToUnusable`).
- A periodic timer cancelled a millisecond or more after its next firing was due gets a negative timeout,
  which waits for ever: it is silent until it is started again (`Timer.LateCancelSilences`; a run that gets there
  is in `Timer.LateCancelHappens`).
- Starting an actor that already runs gives it a second record (`Recovery.StartAgrees`), and after that the
  records and the running actors no longer agree. Every restart of a dead device adds a record
  (`Recovery.DeplManager.HandleProcmon`). An actor that is called like the discovery process, `riaps.disco`, is not
  started again.
- The priority scheduler documents a poll that does not wait after each handler; the code polls without a
  time limit. So one handler runs for each answer of the poller, and an entry waits for as many further answers as
  there are entries before it (`Scheduler.WaitsForAnswers`); it has run exactly if more handlers ran since
  (`Scheduler.RunsOnlyAfterAnswers`). Without a message it stays queued.
- An entry whose port is reset, or whose group is left, while it is queued finds its socket unbound
  (`Poller.BoundAtExecution` says exactly when).
- The consensus timeout of a group is documented in milliseconds and added to a time in seconds when a request
  gives no timeout of its own; the model follows the code.

## Model

| member | source | states |
|---|---|---|
| GroupThreads.Poll.Vote | src/riaps/run/dc.py:68-73 | counts one ballot, and the yes if it was one |
| GroupThreads.Poll.Expired | src/riaps/run/dc.py:75-79 | true exactly if the poll is judged timed out |
| GroupThreads.Poll.Result | src/riaps/run/dc.py:87-94 | true exactly if the counters carry the motion for the poll's kind |
| GroupThreads.GroupQryPort.Update | src/riaps/run/dcPorts.py:427-449 | the whole new state of the query port: server and connections |
| GroupThreads.GroupThread.constructor | src/riaps/run/dc.py:138-155 | a member starts as a follower of nobody, with one heartbeat out if the clock allows and a leader deadline set |
| GroupThreads.GroupThread.UpdatePeers | src/riaps/run/dc.py:206-218 | deleting the collected leavers one by one leaves exactly the peers heard from in time and reports each leaver |
| GroupThreads.RemoveStaleLeavesFresh | src/riaps/run/dc.py:210-218 | removing the leavers one by one from the table equals keeping the fresh peers in place |
| GroupThreads.RemoveDoneLeavesOpen | src/riaps/run/dc.py:661-672 | deleting the finished polls one by one equals keeping the open ones in place |
| GroupThreads.GroupThread.UpdateTimeout | src/riaps/run/dc.py:220-229 | the timeout shrinks by the whole milliseconds elapsed, never below one |
| GroupThreads.GroupThread.CheckAllPolls | src/riaps/run/dc.py:661-672 | announces every finished poll once, in order, and keeps exactly the open ones |
| GroupThreads.GroupThread.StartPoll | src/riaps/run/dc.py:606-628 | a request that is not too late becomes a poll of the members known now, with the time it took taken off the deadline it asked for |
| GroupThreads.GroupThread.OpenOrRefusePoll | src/riaps/run/dc.py:713-724 | an accepted request is broadcast, a late one is announced as timed out |
| GroupThreads.GroupThread.UpdatePoll | src/riaps/run/dc.py:674-693 | a ballot for an open poll is counted; a poll that is then finished is announced and deleted |
| GroupThreads.GroupThread.StartElection | src/riaps/run/dc.py:357-370 | the whole state of a new candidate, its request for votes, and the exit of the leader it gave up |
| GroupThreads.GroupThread.FollowerTimeout | src/riaps/run/dc.py:354-376 | what a follower does on a timeout, with and without a passed deadline and a large enough group |
| GroupThreads.GroupThread.CandidateTimeout | src/riaps/run/dc.py:377-386 | a candidacy that ran out of time ends without a deadline and without a vote |
| GroupThreads.GroupThread.LeaderTimeout | src/riaps/run/dc.py:387-395 | a leader asserts its authority; the assertion that it knows itself as leader holds |
| GroupThreads.GroupThread.HandleTimeout | src/riaps/run/dc.py:346-398 | peers, polls and role after a timeout, in that order |
| GroupThreads.GroupThread.FollowerAuthority | src/riaps/run/dc.py:475-493 | a follower takes over term and leader of an AUTHORITY message and connects to the leader |
| GroupThreads.GroupThread.FollowerReqVote | src/riaps/run/dc.py:494-518 | whom a follower votes for, and what it forgets when it is asked |
| GroupThreads.GroupThread.CandidateReqVote | src/riaps/run/dc.py:522-544 | a candidate refuses rivals of its term, yields to later terms, ignores earlier ones |
| GroupThreads.GroupThread.CandidateRspVote | src/riaps/run/dc.py:545-562 | a vote for the candidate is counted, and on a majority of the known members it becomes leader |
| GroupThreads.GroupThread.LeaderMessage | src/riaps/run/dc.py:578-602 | a leader only gives way to another leader of its own term |
| GroupThreads.GroupThread.PeerLeft | src/riaps/run/dc.py:423-429 | a farewell removes and reports a known peer |
| GroupThreads.GroupThread.PeerHeard | src/riaps/run/dc.py:435-446 | a heartbeat refreshes a peer, and reports a new one |
| GroupThreads.GroupThread.HandleNetMessage | src/riaps/run/dc.py:401-604 | the whole effect of one group message on the member |
| GroupThreads.GroupThread.HandleCompMessage | src/riaps/run/dc.py:231-343 | the whole effect of one message from the component; true exactly if it leaves the group |
| GroupThreads.GroupThread.HandleMessageForLeader | src/riaps/run/dc.py:695-730 | requests and ballots from members reach the polls |
| GroupThreads.GroupThread.Turn | src/riaps/run/dc.py:792-816 | one turn of the loop, whatever the poller reported |
| GroupLoop.RunLoop | src/riaps/run/dc.py:749-818 | the loop over any inputs ends in the state of the run of its turns, and stops exactly when the component leaves |
| GroupNode.TurnKeepsGood | src/riaps/run/dc.py:792-816 | every turn keeps the role invariants, the single connection, the timeout bounds and the component informed |
| GroupNode.Run | src/riaps/run/dc.py:387-395 | over every run: a leader knows itself as leader and has a port, no leader or being leader means no connection, never more than one, a candidate has no leader and voted for itself, and replaying the notifications gives exactly the peers and the leader, with joins and leaves alternating and exits naming the current leader |
| GroupNode.ScanSplitsKeys | src/riaps/run/dc.py:206-218 | who is gone after the scan is exactly who was reported |
| GroupNode.UpdateLinkMovesTheConnection | src/riaps/run/dcPorts.py:427-449 | the query port is connected to exactly the server it was last told, once, or to nothing |
| GroupNode.TurnIsElection | src/riaps/run/dc.py:346-604 | only the election code touches role, term, votes, leader, deadline and connection in a turn |
| GroupNode.LeaderSteps | src/riaps/run/dc.py:578-602 | a leader's term is frozen, and it stays leader exactly unless a rival of its term shows up |
| GroupNode.CandidateSteps | src/riaps/run/dc.py:521-562 | a candidate wins exactly on the yes vote that completes a majority of the members it knows |
| GroupSteps.CandidateYields | src/riaps/run/dc.py:563-577 | AUTHORITY of any member makes a candidate a follower of the sender in its term, without a vote, with a new deadline, connected to it |
| GroupSteps.CandidateGivesUp | src/riaps/run/dc.py:377-386 | a candidacy that times out leaves a follower without leader, vote and deadline |
| GroupSteps.CandidateIsAsked | src/riaps/run/dc.py:522-544 | a candidate votes for one that asks in a later term and stays candidate otherwise |
| GroupSteps.CandidateHearsVote | src/riaps/run/dc.py:545-562 | a yes vote for the candidate is counted and makes it leader at a new port with a majority; other votes change nothing |
| GroupSteps.FollowerFollows | src/riaps/run/dc.py:475-493 | AUTHORITY makes a follower follow the sender, with a new deadline, connected to it unless its port is zero |
| GroupSteps.FollowerIsAsked | src/riaps/run/dc.py:494-518 | a follower that is asked takes over the term, gives up leader, connection and deadline, and votes if it had no vote out or the term is new |
| GroupSteps.FollowerTimesOut | src/riaps/run/dc.py:354-376 | past its deadline a follower stands with enough members and otherwise gets another deadline; without one it waits on |
| GroupSteps.FollowerHearsVote | src/riaps/run/dc.py:519-520 | a vote among others only makes a follower wait anew |
| GroupSteps.LeaderTimesOut | src/riaps/run/dc.py:387-395 | a leader that times out stays as it is, without a deadline |
| GroupSteps.LeaderHearsElection | src/riaps/run/dc.py:578-602 | a leader gives way to a rival of its own term, connected to it, and to nothing else |
| GroupSteps.OtherMessages | src/riaps/run/dc.py:401-474 | messages that are not about an election leave it alone, but requests and announcements move the leader deadline |
| GroupSteps.StartsAsFollower | src/riaps/run/dc.py:777-786 | a member starts as a follower of nobody in term zero with a leader deadline, and one heartbeat if the clock allows |
| GroupSteps.StopsOnLeaving | src/riaps/run/dc.py:336-343 | a member stops exactly when its component leaves the group, and says farewell then |
| GroupSteps.TurnSaysWhatItOwes | src/riaps/run/dc.py:346-604 | a turn broadcasts exactly the election messages owed: AUTHORITY of a leader and of a winner, the request of a new candidate, an answer to every request |
| GroupNode.FollowerSteps | src/riaps/run/dc.py:354-376 | a follower becomes candidate exactly on a timeout past its deadline with enough members, and never leader |
| GroupNode.VotesAreCounted | src/riaps/run/dc.py:545-550 | over every run a candidate's votes are one plus the yes votes for it consumed in this candidacy |
| GroupNode.SelfBeliefLastsUnlessOwnAuthorityReturns | src/riaps/run/dc.py:160-161 | isLeader() keeps agreeing with the role exactly as long as a member that is not leader does not take up its own AUTHORITY message |
| GroupNode.DeposedLeaderFollowsItself | src/riaps/run/dc.py:474-493 | a run: a leader sends AUTHORITY, is deposed by a rival of its term at any port, and receives its own message; it follows itself, connected to its own answer port |
| GroupNode.TimeoutDrift | src/riaps/run/dc.py:182-229 | after k messages over a time E the timeout is at least one, not above its start, and at most max(1, T - E + k) milliseconds |
| GroupPolls.JudgeDecides | src/riaps/run/dc.py:642-659 | the leader's counters judge a poll as the ballots themselves do |
| GroupPolls.TurnRefines | src/riaps/run/dc.py:661-728 | every turn takes the docket of requests and ballots to the docket after it |
| GroupPolls.PollsRefineDocket | src/riaps/run/dc.py:606-693 | over every run the open polls are the pending requests, and every other request was announced once with the verdict of its ballots |
| GroupPolls.PollsRunAsAsked | src/riaps/run/dc.py:613-624 | a poll runs for the time its request names, or the consensus timeout in seconds if it names none, less twice the time the request took; one that took longer is refused |
| GroupPolls.PollOutcomes | src/riaps/run/dc.py:642-693 | a request is open or answered exactly once; yes and no come with the ballot that makes the count the number of members, no later than the request's own timeout allows, and say whether the ballots carry the motion; a timeout comes later than that, or at once for a request that took too long; open polls wait for ballots |
| GroupPolls.AcceptedRequestsCanBeDead | src/riaps/run/dc.py:617-624 | an accepted request can only be answered with a timeout exactly if it took more than half of the time it allows |
| GroupPolls.VerdictIgnoresOrder | src/riaps/run/dc.py:87-94 | strict majority and unanimity do not depend on the order of the ballots |
| GroupSystem.NextIsWellFormed | src/riaps/run/dc.py:792-816 | every action of any member keeps all members' invariants |
| GroupSystem.TurnSpeaks | src/riaps/run/dc.py:346-604 | a turn broadcasts at most one election message, which is true of the member; heartbeats are due, own and first; farewells only on leaving |
| GroupElection.TurnMoves | src/riaps/run/dc.py:494-562 | in a round a member votes once, stays leader, and wins only with a majority of yes votes |
| GroupElection.StepKeepsRound | src/riaps/run/dc.py:346-562 | every step of a round keeps: one candidacy per member, one yes vote per voter and standing by it, leaders backed by consumed yes votes |
| GroupElection.LeaderHasMajority | src/riaps/run/dc.py:176-180 | a leader in a round has a majority of all members as supporters |
| GroupElection.LeadersAgree | src/riaps/run/dc.py:176-180 | two members that are leaders in a state of a round are the same |
| GroupElection.AtMostOneLeaderInRound | src/riaps/run/dc.py:346-562 | election safety: in every round, whatever is lost, reordered or times out, at most one member is ever leader |
| GroupStability.TurnNews | src/riaps/run/dc.py:199-204 | only the election code reports elections and exits |
| GroupStability.CalmFollowerTurn | src/riaps/run/dc.py:447-493 | a follower that meets only its leader's AUTHORITY and no passed deadline keeps role, term and leader, and its deadline only moves to at least electionMax ahead |
| GroupStability.LeaderStaysUndisturbed | src/riaps/run/dc.py:354-395 | leader stability: while no follower times out more than electionMax after AUTHORITY, no role, term or leader changes in any continuation and nobody is told of an election or exit |
| GroupStability.LongerGapsStartElections | src/riaps/run/dc.py:163-168 | the bound is sharp: a later timeout can start an election exactly if enough members are around |
| GroupStall.OnlyLeadersAwaken | src/riaps/run/dc.py:163-168 | a follower without a leader deadline gets one exactly from AUTHORITY, a request or an announcement of the leader, and never stands before |
| GroupStall.LeaderlessTurn | src/riaps/run/dc.py:346-604 | a member without leader and polls stays so while it hears no leader and counts no vote; standing or being asked costs it its deadline |
| GroupStall.LostElectionStalls | src/riaps/run/dc.py:354-386 | an election in which all members stood or were asked and none won leaves only followers that wait for no leader |
| GroupStall.StallIsForEver | src/riaps/run/dc.py:354-376 | from then on no member is ever candidate or leader in any continuation |
| GroupStall.NewSystemHasNoLeader | src/riaps/run/dc.py:777-786 | members that just started meet what these results start from |
| GroupStall.GroupsDoStall | src/riaps/run/dc.py:354-386 | a run of two new members that stalls |
| GroupTraffic.TurnAdds | src/riaps/run/dc.py:792-816 | a turn forwards, answers, broadcasts and sends to the leader exactly what it should |
| GroupTraffic.TrafficIsPassedOn | src/riaps/run/dc.py:231-474 | over every run the component got each message of the group and one answer to each command, the group each published message and each accepted request, the leader each request and ballot of a connected follower, once and in order |
| GroupDetector.TurnDropsTheOverdue | src/riaps/run/dc.py:206-218 | a turn drops and reports a peer exactly if it is overdue or said farewell, and a heartbeat brings it in: a silent peer is gone after the first turn past its timeout |
| GroupDetector.LastBeatIsRecent | src/riaps/run/dc.py:190-197 | a member whose turns come on time has beaten within heartbeat + electionMax + handling time |
| GroupDetector.NeverOverdue | src/riaps/run/dc.py:206-218 | if that gap and the delay fit into the peer timeout, a live peer is not overdue at any turn of the listener |
| GroupDetector.LivePeerIsNeverDropped | src/riaps/run/dc.py:190-218 | over every run a live member is never reported as gone, and once known stays known |
| GroupDetector.NewSystemIsTracked | src/riaps/run/dc.py:777-786 | members that just started meet what the detector's guarantee starts from |
| DiscoNames.ConsumerFindsProvider | src/riaps/discd/discs.py:217-253 | provider key and consumer key are equal exactly if application, message type and scope agree, the kinds are one of the six pairs, local services share the host, and internal ones the owner on it, which for a device is the part of its name before the dot |
| DiscoNames.OwnerIs | src/riaps/discd/discs.py:229-233 | a device belongs to the actor its name starts with, any other actor to itself |
| DiscoNames.KeysAreBuilt | src/riaps/discd/discs.py:217-253 | building a key raises exactly for a kind that consumes nothing and for an internal service of a device whose name has not exactly one dot |
| DiscoNames.DeviceServesItsOwner | src/riaps/discd/discs.py:229-253 | a device's internal service is found by the consumers in its owner and in the owner's other devices |
| DiscoNames.ClientRoundTrip | src/riaps/discd/discs.py:254-261 | parsing a client id gives back application, actor, host, instance, port and scope |
| DiscoNames.EndpointRoundTrip | src/riaps/discd/discs.py:333-337 | consumers read back the host and port a provider was stored with |
| DiscoNames.WhatParses | src/riaps/discd/discs.py:486-500 | exactly client ids with five slashes or more, values with a colon and ports of digits can be read back |
| DiscoNames.ActorKeysDiffer | src/riaps/discd/discs.py:105-109 | different actors have different table keys |
| DiscoServices.RedisDbase.Insert | src/riaps/discd/dbase_redis.py:128-147 | a value is stored; the clients of the key are returned exactly if it was new |
| DiscoServices.RedisDbase.Fetch | src/riaps/discd/dbase_redis.py:149-167 | the client is enrolled, the key subscribed, and exactly the stored values are returned |
| DiscoServices.RedisDbase.Remove | src/riaps/discd/dbase_redis.py:170-184 | the value goes, and the subscription with the last value |
| DiscoServices.RedisDbase.FetchUpdates | src/riaps/discd/dbase_redis.py:95-126 | every value under every notified key is returned with the clients of the key, and nothing else |
| DiscoServices.RedisDbase.Detach | src/riaps/discd/dbase_redis.py:186-200 | exactly the client's enrolment goes |
| DiscoServices.DiscoService.SetupClient | src/riaps/discd/discs.py:111-131 | the actor's tables are new and empty, and all tables name exactly the actors that are set up |
| DiscoServices.DiscoService.RemoveServices | src/riaps/discd/discs.py:157-161 | removing the registered entries one by one removes exactly these, and unsubscribes exactly the keys left without values |
| DiscoServices.DiscoService.UnsetupClient | src/riaps/discd/discs.py:133-168 | an actor that is set up loses its tables and its entries and gets its port back; otherwise nothing changes |
| DiscoServices.DiscoService.HandleServiceReg | src/riaps/discd/discs.py:263-296 | registration with the database and the actor, the update for enrolled clients, and the two ways it fails |
| DiscoServices.DiscoService.HandleServiceLookup | src/riaps/discd/discs.py:298-339 | enrolment with the database and the actor; the answer is exactly the providers stored under the key |
| DiscoServices.DiscoService.HandleServiceUnreg | src/riaps/discd/discs.py:341-369 | the entry leaves the database and the actor's registrations |
| DiscoServices.DiscoService.HandleServiceUnlookup | src/riaps/discd/discs.py:386-418 | the client leaves the database and the actor's enrolments |
| DiscoServices.DiscoService.HandleUpdate | src/riaps/discd/discs.py:479-529 | the clients on this host that are set up are told in order, up to the first client id or port it raises on |
| DiscoServices.SendsUpToUnusable | src/riaps/discd/discs.py:486-529 | exactly the clients before the first unusable entry are told, all of them exactly if every id parses and the port is a number where a client is told |
| DiscoServices.OnlyClientsHereAreTold | src/riaps/discd/discs.py:508-529 | a message is sent exactly for a client id in the list that names this host and an actor set up here, and says what id and provider say |
| DiscoServices.NewProviderReachesConsumer | src/riaps/discd/discs.py:285-296 | an enrolled consumer of a matching service that is set up here is told the provider's endpoint, at the instance, port and scope it asked for |
| DiscoServices.AddKeepsAccount | src/riaps/discd/discs.py:285-287 | storing for an actor keeps ownership exactly if nobody else owns the entry |
| DiscoServices.DropKeepsAccount | src/riaps/discd/discs.py:361-363 | removing for an actor keeps ownership exactly if nobody else owns the entry |
| DiscoServices.ForgetKeepsAccount | src/riaps/discd/discs.py:127-130 | setting up a client again keeps ownership exactly if it owned nothing |
| DiscoServices.OwnershipKeptIfFit | src/riaps/discd/discs.py:263-410 | each request keeps "database entries are other servers' and the actors' own" exactly if it is fit |
| DiscoServices.OwnershipOverRuns | src/riaps/discd/discs.py:111-168 | ownership holds after every sequence of fit requests, with other servers working on the same database |
| DiscoServices.UnsetupRemovesOwnEntries | src/riaps/discd/discs.py:157-168 | unregistering an actor removes exactly its entries and leaves everybody else's |
| DiscoRace.StoreKeepsInv | src/riaps/discd/dbase_redis.py:137-139 | a value stored by any service reaches every covered client's service |
| DiscoRace.EnrollKeepsInv | src/riaps/discd/dbase_redis.py:154-163 | subscribe, read, enrol in this order leaves no value between reading and notification |
| DiscoRace.ReadKeepsInv | src/riaps/discd/dbase_redis.py:113-120 | reading values before clients in fetchUpdates loses no client and no value |
| DiscoRace.GoKeepsInv | src/riaps/discd/dbase_redis.py:72-200 | every single database call and every message keeps all covered clients served |
| DiscoRace.NoProviderIsLost | src/riaps/discd/dbase_redis.py:72-200 | in every interleaving, for every enrolled client and stored value: told, or notification pending, or told by the operation in progress |
| DiscoRace.OnlyTheEnrolledAreTold | src/riaps/discd/dbase_redis.py:95-167 | in every interleaving whoever is newly told of a value under a key was enrolled on the key, and the value stored under it, in some state of the run |
| DiscoRace.TellAllIs | src/riaps/discd/discs.py:486-529 | a round of messages tells exactly the clients of this host that are set up and named in a note for the value |
| DiscoRace.FetchUpdatesTellsEverybody | src/riaps/discd/dbase_redis.py:95-126 | a fetchUpdates that runs to its end leaves no covered client of the service untold of a stored value, whatever other services do in between |
| DiscoRace.FetchUpdatesAlone | src/riaps/discd/dbase_redis.py:95-126 | without interference fetchUpdates ends after a known number of calls, with an empty queue and all clients told |
| DiscoRace.NewValueReachesSubscribers | src/riaps/discd/dbase_redis.py:83-92 | a new value reaches an idle service exactly if it is subscribed to the key |
| DiscoRace.InsertAlone | src/riaps/discd/dbase_redis.py:128-147 | without interference insert stores a new value and tells the clients of its own host, and does nothing for a known one |
| DiscoRace.FetchAlone | src/riaps/discd/dbase_redis.py:149-167 | without interference fetch subscribes, enrols and answers with exactly the values stored |
| DiscoRace.RemoveAlone | src/riaps/discd/dbase_redis.py:170-184 | without interference remove drops the value, and subscription and coverage with the last one |
| DiscoRace.DetachAlone | src/riaps/discd/dbase_redis.py:186-200 | without interference detach takes the client off the key and changes nothing else |
| DiscoRace.RemoveLosesTheNextProvider | src/riaps/discd/dbase_redis.py:170-184 | after the last provider was removed through its service, nothing pending tells an enrolled client of the next one, and nothing does in any continuation in which the service does not fetch the key or insert under it |
| DiscoRace.DeafUntilAsked | src/riaps/discd/dbase_redis.py:83-92 | once nothing at a service concerns a key, its clients hear of no value under it in any continuation until the service is asked for the key |
| DiscoRace.ProvidersDoGetLost | src/riaps/discd/dbase_redis.py:83-92 | such runs exist |
| DiscoRefines.InsertRefines | src/riaps/discd/dbase_redis.py:128-147 | the single calls of insert, on their own, leave the database as Insert does, and tell its own enrolled clients of a new value |
| DiscoRefines.FetchRefines | src/riaps/discd/dbase_redis.py:149-167 | the single calls of fetch, on their own, leave the database as Fetch does, and tell the client what it returns |
| DiscoRefines.RemoveRefines | src/riaps/discd/dbase_redis.py:170-184 | the single calls of remove, on their own, leave the database as Remove does |
| DiscoRefines.DetachRefines | src/riaps/discd/dbase_redis.py:186-200 | the single call of detach leaves the database as Detach does, for a client whose id is its own |
| PortIndex.GetPorts | src/riaps/lang/lang.py:130-218 | succeeds exactly if names are unique and classes known; each port is in its table with its index and nothing else is; the eight classes that receive have an index, publishers and clients have none; otherwise the first wrong port is named |
| PortIndex.IndicesFollowDeclaration | src/riaps/lang/lang.py:142-208 | of two input ports the one declared first has the smaller index, from 1 on |
| PortIndex.IndicesHaveNoGaps | src/riaps/lang/lang.py:142-208 | every index up to the number of input ports belongs to a port |
| Scheduler.ComponentThread.RunFirst | src/riaps/run/comp.py:314-315 | what runs is first by priority and arrival among all queued entries |
| Scheduler.ComponentThread.PriorityScheduler | src/riaps/run/comp.py:294-329 | for any answers of the poller the log stays legal and exactly the reported entries are queued; one handler runs before every answer and one after the last, unless it was a kill command; it returns only on an empty queue, a kill command or a poller without answer |
| Scheduler.NothingIsLost | src/riaps/run/comp.py:303-318 | entries queued are entries run plus entries still queued |
| Scheduler.NothingOvertakes | src/riaps/run/comp.py:309-315 | a queued entry that comes first by priority or arrival has run before |
| Scheduler.EarlierDeclaredRunsFirst | src/riaps/run/comp.py:297-300 | of two queued port entries the one whose port was declared first runs first |
| Scheduler.FirstInFirstOut | src/riaps/run/comp.py:308-310 | entries of equal priority run in the order of arrival |
| Scheduler.RankFalls | src/riaps/run/comp.py:312-315 | every handler that runs brings a queued entry one place forward, every arrival that comes before it puts it one place back |
| Scheduler.RunsInItsTurn | src/riaps/run/comp.py:312-315 | an entry runs after exactly as many handlers as there were entries before it, plus those that overtook it |
| Scheduler.WaitsForAnswers | src/riaps/run/comp.py:312-319 | an entry waits for exactly one answer of the poller for every entry that comes before it |
| Scheduler.RunsOnlyAfterAnswers | src/riaps/run/comp.py:312-319 | an entry that is not overtaken has run exactly if more handlers ran since its arrival than there were entries before it |
| Poller.Port.Update | src/riaps/run/port.py:597-604 | the port's socket stays connected to exactly its servers, once each, the new one included |
| Poller.Port.ResetConnSocket | src/riaps/run/port.py:580-595 | a new socket, connected to exactly the same servers, replaces the old one in the port and in all tables, and nothing changes for any other port: the reset of the sequences |
| Poller.ComponentThread.SetupPort | src/riaps/run/comp.py:75-84 | one more port in the tables keeps them consistent |
| Poller.ComponentThread.ReplaceSocket | src/riaps/run/comp.py:86-99 | the tables are consistent for the port with its new socket, and the old socket is closed |
| Poller.ComponentThread.AddGroupSocket | src/riaps/run/comp.py:101-107 | a joined group is polled, named and has its priority: the join of the sequences |
| Poller.ComponentThread.DelGroupSocket | src/riaps/run/comp.py:109-115 | a left group leaves no trace in any table: the leave of the sequences |
| Poller.ComponentThread.PortUpdate | src/riaps/run/comp.py:138-150 | the command connects the named port and no other to the server: the update of the sequences |
| Poller.ComponentThread.ExecuteHandlerFor | src/riaps/run/comp.py:196-234 | the handler is that of the socket's port or group, and none exactly if the socket is unbound; a polled socket is never unbound; a failure is reported exactly if something raised, a violation exactly if a port's deadline was exceeded |
| Poller.PolledIsBound | src/riaps/run/comp.py:66-115 | the polled sockets are exactly control, input ports and joined groups; each but control belongs to one port or one group and has a priority |
| Poller.NeverUnbound | src/riaps/run/comp.py:66-115 | this holds after every sequence of updates, resets, joins and leaves |
| Poller.ConnectionsFollowServers | src/riaps/run/port.py:580-604 | after every such sequence each port's current socket is connected to exactly the servers it knew and those it was told of, once each, and no socket is left open that no port has |
| Poller.GroupsKeepTheirPriority | src/riaps/run/comp.py:101-115 | a joined group keeps the priority it was joined with over every sequence, until it is left |
| Poller.BoundAtExecution | src/riaps/run/comp.py:202-234 | a socket that was bound when it was queued is bound when its entry runs exactly unless its port was reset or its group left, and then it is still the same port's or group's |
| Recovery.AppDbase.AddApp | src/riaps/deplo/appdb.py:140-160 | an application is listed once |
| Recovery.AppDbase.DelApp | src/riaps/deplo/appdb.py:162-173 | the application's first listing and its list of actors go |
| Recovery.AppDbase.GetAppActor | src/riaps/deplo/appdb.py:195-203 | a record of the actor, found exactly if there is one |
| Recovery.AppDbase.DelAppActor | src/riaps/deplo/appdb.py:205-214 | the list keeps exactly the other actors' records, in order |
| Recovery.WithoutKeepsOrder | src/riaps/deplo/appdb.py:205-214 | each record stays or goes by itself, at its place |
| Recovery.StartAgrees | src/riaps/deplo/depm.py:680-687 | recording a start keeps "records are the running actors, one each" exactly if the actor was not running |
| Recovery.StopAgrees | src/riaps/deplo/depm.py:801-805 | stopping an actor takes away it and its record only |
| Recovery.DeplManager.StartActor | src/riaps/deplo/depm.py:584-689 | an actor that starts is recorded and running, one that does not leaves nothing behind; records and running actors still agree exactly if it was not running already |
| Recovery.DeplManager.StartDevice | src/riaps/deplo/depm.py:1355-1366 | a device is recorded without disturbing the agreement of records and running actors |
| Recovery.DeplManager.StopDevice | src/riaps/deplo/depm.py:1385-1408 | the process entry goes and the records stay; the assertion fails exactly for the process of an actor that is no device |
| Recovery.DeplManager.StopActor | src/riaps/deplo/depm.py:761-805 | the actor, its process entry and its record go; a record to undo the firewall from is always there |
| Recovery.DeplManager.HandleProcmon | src/riaps/deplo/depm.py:1551-1584 | a dead actor is started again as it was, or is gone with its record; a dead device is started again as it was, with one more record; the assertions on names and processes hold |
| Recovery.DeplManager.StopAllOrphans | src/riaps/deplo/depm.py:977-982 | every recorded actor's orphan is looked for, and no record is left |
| Recovery.DeplManager.RecoverApp | src/riaps/deplo/depm.py:989-1005 | exactly the application's recorded actors that can be started run again, each as recorded |
| Recovery.DeplManager.Recover | src/riaps/deplo/depm.py:972-1005 | after a crash exactly the recorded actors that can be started run again with one record each; if all can, the same actors run as before |
| Recovery.QualSplits | src/riaps/deplo/depm.py:1563-1566 | a qualified name splits back into application and actor |
| Fsm.Declare | src/riaps/run/fsm.py:197-214 | the decorators leave, for each event and state, exactly its declarations in order |
| Fsm.Build | src/riaps/run/fsm.py:62-84 | the nested tables hold exactly the declarations of the class's events, or a state is unknown |
| Fsm.FSM.Take | src/riaps/run/fsm.py:146-152 | exit hook, action, entry hook, and only then the next state |
| Fsm.FSM.Update | src/riaps/run/fsm.py:127-159 | the table dispatch does what a scan of the flat declarations does, including unhandled events |
| Fsm.FSM.Run | src/riaps/run/fsm.py:127-159 | the same for every sequence of events |
| Fsm.FireMoves | src/riaps/run/fsm.py:146-152 | a fired transition leads to the state it names or stays; exit hook, action, entry hook are shown in this order and nothing else |
| Fsm.FireChangesData | src/riaps/run/fsm.py:146-152 | the data goes through exit hook, action and entry hook in this order, all of them at the old state |
| Fsm.FirstDeclaredFires | src/riaps/run/fsm.py:134-153 | an event fires the first declaration it can fire, or changes neither data nor state |
| Fsm.NothingFires | src/riaps/run/fsm.py:127-159 | an event that fires nothing is reported exactly if it is not declared, or not for the state |
| Fsm.RunEndsAtLastTarget | src/riaps/run/fsm.py:127-159 | after any events the state is the target of the last fired transition that names one, and the actions taken are those of the fired transitions, in order |
| Fsm.FirstEnabledFires | src/riaps/run/fsm.py:136-153 | exactly the first enabled transition fires, or nothing if none is enabled |
| Fsm.LaterEnabledAreReported | src/riaps/run/fsm.py:141-144 | every later transition that is enabled after the firing is reported once, and changes nothing |
| Timer.TimerThread.Run | src/riaps/run/timPort.py:78-128 | the thread over any inputs ends in the state of the run, and stops only when it is terminated |
| Timer.TicksNeedActiveAndRunning | src/riaps/run/timPort.py:81-97 | a tick is sent exactly on a timeout while active and running that a periodic timer does not skip |
| Timer.SporadicTicksAfterItsDelay | src/riaps/run/timPort.py:81-115 | a sporadic timer started while active waits for its delay, ticks, and then waits for a command |
| Timer.PeriodicTicksEveryPeriod | src/riaps/run/timPort.py:81-115 | a periodic timer started while active ticks on every timeout, a period apart |
| Timer.CancelSkipsTheNextFiring | src/riaps/run/timPort.py:86-120 | after a CANCEL a running periodic timer waits for what is left, does not tick then, and ticks a period later |
| Timer.ActiveAsSwitched | src/riaps/run/timPort.py:78-109 | a timer is active exactly if it was last activated; it ends only on TERMINATE or a START without a delay |
| Timer.WaitsForACommand | src/riaps/run/timPort.py:81-126 | HALT, DEACTIVATE and CANCEL of a sporadic timer leave nothing to wait for; commands that do not apply change nothing |
| Timer.SilentUntilStart | src/riaps/run/timPort.py:101-126 | after HALT or DEACTIVATE, or CANCEL of a sporadic timer, nothing ticks until a START is accepted |
| Timer.TicksAtMostStarts | src/riaps/run/timPort.py:94-96 | a sporadic timer never ticks more often than STARTs were accepted |
| Timer.CancelSkipsOne | src/riaps/run/timPort.py:86-90 | every firing of a periodic timer ticks, except at most one for each CANCEL |
| Timer.LateCancelCannotTimeOut | src/riaps/run/timPort.py:116-120 | after a CANCEL the timer can time out exactly if its next firing is not a millisecond or more overdue |
| Timer.LateCancelSilences | src/riaps/run/timPort.py:116-120 | after an overdue CANCEL a periodic timer is silent until a START is accepted |
| Timer.LateCancelHappens | src/riaps/run/timPort.py:78-128 | a run from the start that gets there: active and running after an overdue CANCEL, with no timeout left to come |

## Left out

- GroupThreads.GroupThread.HandleCompMessage: messages between members and the leader that only pass data on (MTL, MFL), GROUP_UPD and errors of the messaging library are not modelled; they do not touch the state modelled here, and neither do the timestamps of timed groups.
- A second election won by the same member: the code that binds its answer port again cannot run
  (`self.self.socket` in dcPorts.py:276); the model takes a fresh port number.
- Uncoordinated groups, the 32-bit packing of terms, and a clock that steps back.
- GroupThreads.GroupThread.Turn: takes one reading of the clock for the leader deadlines of a turn, where the source reads it again for each; the reading is any time not before the start of the turn.
- Stopped members: a member of a group may go on taking turns after it left; this only adds runs.
- The group's lists of received packets: delivery at most once is given, not modelled down to sockets.
- DiscoRace.GoKeepsInv: a subscription takes effect when the call is made; the order in which the database server takes up calls of two connections is not modelled.
- DiscoServices.DiscoService.HandleUpdate: a port is a text of decimal digits; other texts that `int()` takes (signs, blanks, underscores) count as no number.
- Database reconnects (which forget subscriptions), the DHT database, group join requests to the discovery service
  (which only answer), and services for the same actor name in two applications with a slash in their names.
- `rrScheduler`: its rotation of the jobs is not a permutation in general, so nothing is conserved; the batch
  scheduler is a plain loop.
- Poller.ComponentThread.ExecuteHandlerFor: whether the handler raises and how long it takes are given.
- Poller.ComponentThread.PortUpdate: what the update of a group does is up to the group.
- Ports whose sockets are bound rather than connected, timers and plugs of device ports: their sockets do not change.
- Recovery.DeplManager.StartActor: the system calls that start a process are one outcome; users, firewall rules, resource and fault managers are not modelled.
- Recovery.DeplManager.StopOrphanActor: records that the process was looked for; whether it still ran under the recorded command line is up to the system.
- Recovery.DeplManager.HandleProcmon: when the discovery process died it is started again and the actors are asked to reinstate their connections, which does not touch the state modelled here.
- Cleaning up an application while its actors run, which deletes their records.
- Fsm.FSM.Take: actions that set the state themselves, and hooks or actions that raise, are not considered.
- Values of messages, serialization, security, logging, the controller, the fault manager's peer tracking,
  configuration and code generation.
