# Verification of the rps-backend game server

This project models a server on which two players play rock, paper, scissors over WebSocket connections. SQLite
holds the truth about players and games; an in-memory hub knows which connections are live, which player each one is
authenticated as and which game it is attached to. Every connection has a goroutine that reads and dispatches its
requests, and a sweeper expires what has been inactive for too long.

Check everything with `dafny verify dfyconfig.toml`.

## How the model is built

- `Rules`, `RulesRuns`: the rules as functions on the state of a game, and what holds after any run of them.
  `RulesHistory`: the rules a second time, as an account of what has been accepted so far, which the states follow.
- `Timestamps`: the stored form of a time, its text order and its parsing.
- `Store`: the stored players and games as maps, and each statement or transaction of the store as a function; unique
  keys, foreign keys and `ON DELETE SET NULL` included. A secret is represented by the digest it hashes to.
- `Registry`: the hub's indexes as values, and each critical section of the registry lock as a function.
- `Protocol`: the whole server as a state machine. A goroutine has a control state; a step is one critical section of
  the registry lock, one statement or transaction of the store, one send, or one acquisition or release of a game
  lock. Store calls may fail, listings come in any order, times and new ids are arbitrary, and steps of any number of
  connections, of the sweeper and of the rest of the program interleave freely. `Behaviour` is a run of it, starting
  from any stored games and players; `Reached` worlds are the worlds of behaviours, and `LeadsBy` is a stretch of a run
  all of whose steps satisfy a condition.
- `ProtocolReached`: induction over runs. `ProtocolDoes`: each step does one of a few effects to what is shared, apart
  from where it leads; most theorems look at the effect alone.
- `ProtocolLocks`, `ProtocolInvariant`, `ProtocolRely`, `ProtocolEffects`, `ProtocolStoreEffects`, `ProtocolFree`,
  `ProtocolBody`, `ProtocolNext`, `ProtocolSafety`: one inductive invariant over all of that. A game's lock protects
  its row, its attachments and the snapshots sent about it; each control state asserts something that the steps of
  others keep; `ProtocolSafety.Always` says that the invariant holds in every reached world.
- `ProtocolTheorems`, `ProtocolPlayers`, `ProtocolReplies`, `ProtocolRounds`, `ProtocolProgress`, `ProtocolSeats`,
  `ProtocolActivity`, `ProtocolCodes`, `ProtocolLast`, `ProtocolPresence`: what follows for the server, or is inductive
  on top of it.
- `ProtocolRecall`, `ProtocolBacked`, `ProtocolBackedSteps`, `ProtocolBackedRuns`: along a run each goroutine has a task,
  the last request or job it began, and findings, which are what its own steps since then met in the store and the
  registry. What a request deserves (`Deserves`, `Grants`) is stated from the request and the stored rows alone, and
  every control state is backed by a task and its findings. `ProtocolReasons`, `ProtocolDelivery`, `ProtocolTact`,
  `ProtocolScores`: why things happen, that news reaches everybody it concerns and nobody else, and what the snapshots
  that are sent say.
- `Snapshots`: the view of a game and its rendering for a seat. A message of the protocol carries the view and the
  seat it is rendered for; `Payload` is what the client gets.
- `ProtocolAlike`, `ProtocolAlikeSteps`, `ProtocolSecrecy`: two servers whose stores and requests differ in one
  player's throws, step by step, and what the opponent gets from each.
- `ProtocolRuns`: building runs step by step. `ProtocolLate` is a run that authenticates a player, connects it to a
  game, expires its opponent and connects it to another game; `ProtocolLeak` is a run in which a connection is replaced
  while it waits for a game lock.
- `Conns`, `Hubs`: connections, the writer and the hub's maps as classes that are updated in place, each method tied
  to the function that the state machine uses for it.
- `Discriminators`, `Sweeps`: creating players under interference, and a whole sweep.

The protocol assumes one dispatcher per connection, as the transport guarantees: only a connection's own reader
authenticates it, attaches it or disconnects it.

## Findings

- The expiry of a player checks the player's inactivity once and deletes the player outside every game lock. A player
  who creates a game in between is deleted although it has just been active, and the open game is left without a
  host (`ProtocolSeats.ExpiryRaces`). Open games keep their players exactly as long as no seated player is deleted,
  which is so whenever nobody is seated while being expired.
- A game that is closed is announced after its connections have been detached. Such a connection may already be in
  another game when the last snapshot of the old one arrives (`ProtocolLate.LastSnapshotMayBeLate` is such a run). A
  snapshot misleads its receiver exactly if that is attached to another game when it is sent
  (`ProtocolLast.SendingMisleads`), and a run in which nobody joins a game while still to be told about another is free
  of it (`ProtocolLast.LastSnapshotIsCurrent`), so that every run to that world goes through such a joining
  (`ProtocolLate.LateOnlyByJoining`). The last snapshot *of the game a connection is attached to* always shows
  what is stored (`ProtocolTheorems.ViewsAreCoherent`).
- A connection that has been replaced while it waited for a game lock still attaches when it gets the lock, although
  the newer connection of its player may sit in the seat already. The connecting code sends every other connection the
  snapshot of the other seat, and so the newer connection gets the rendering for the opponent, with a throw that is
  hidden from its player (`ProtocolLeak.ThrowsMayBeShown`). Of all connections that a snapshot goes to, nobody else is
  listed for another seat than its own (`ProtocolSecrecy.WrongSeats`), and without such an attachment throws are secret
  (`ProtocolSecrecy.OpponentLearnsNothing`, `ProtocolLeak.ShownOnlyBeside`).
- When that replaced connection goes, everybody is told that the seat is empty, although the newer connection is still
  there (`ProtocolLeak.SeatsMayBeOverlooked`); this happens exactly if a live connection remains in the seat
  (`ProtocolPresence.GoingOverlooks`, `ProtocolLeak.OverlookedOnlyBeside`). A player who is deleted between the save and
  the attachment of its connection, or while it is attached, leaves a connection whose seat nobody holds; snapshots do
  not count it (`ProtocolPresence.Strands`). A connection that is closing and not yet detached is shown as connected by
  clients and not by new snapshots, so what clients show is exact only while there is none
  (`ProtocolPresence.ClientsSeeTheGame`).
- The documentation calls stored times RFC 3339 with nanoseconds; the code writes the fraction with fixed width, and
  has to: with the fraction trimmed, a time is sorted after later ones of its second whose digits continue its own
  (`Timestamps.TrimmedFractionsMisorder`).

## Model

| member | source | states |
|---|---|---|
| ProtocolTheorems.MutualExclusion | internal/hub/hub.go:97-117 | At every instant of every run, a game has an entry in the lock table exactly while some goroutine is between registering for the lock and being done with it; all of these have the same lock object, its count is their number, and at most one is inside |
| ProtocolLocks.StepLocks | internal/hub/hub.go:36-39 | Every step of the server keeps the lock table, the counts and the holders in agreement, although lock objects are made when first wanted and dropped when unused |
| ProtocolTheorems.ChangesAreLegal | internal/hub/actions.go:238-263 | No update is lost: whatever the interleaving, a stored state changes only while the changing goroutine holds the lock of the game, by one whole rules operation that succeeds on the state stored at that moment |
| ProtocolTheorems.StoredGamesAreRuns | internal/hub/actions.go:184-205 | Serialisability: the stored state of a game is what the recorded attempts, applied one after the other in the order of their commits, make of the state it started with |
| ProtocolTheorems.CreatedFresh | internal/store/store.go:296-318 | A game that was not stored when the server started began in the initial state |
| ProtocolTheorems.StoredGamesKeepTheLedger | internal/rules/rules.go:105-219 | In every reachable world, the counters of every game created since the server started are the tallies of its resolved rounds, and status, throws and outcome fit together |
| ProtocolSafety.StepInv | internal/hub/hub.go:259-290 | Every step of every goroutine and of the environment keeps the invariant of store, registry, locks, logs and control states |
| ProtocolSafety.Always | internal/hub/hub.go:1-7 | The invariant holds in every reached world, that is in every world of every run from any stored games and players |
| ProtocolTheorems.ViewsAreCoherent | internal/hub/hub.go:206-222 | While nobody is inside the lock of a game and no snapshot of it has failed since its last broadcast, the last snapshot of the game sent to each attached connection that is not closing shows the stored state |
| ProtocolLast.SendingMisleads | internal/hub/hub.go:300-313 | Sending a connection a snapshot of a game makes the last snapshot it was sent one of another game than it is attached to exactly if it is attached to another game at that moment |
| ProtocolLast.LastSnapshotIsCurrent | internal/hub/hub.go:292-314 | Unless a connection was attached to a game while the holder of another game's lock was still to send it a snapshot, the last snapshot it was sent, of whichever game, is of its game and shows the stored state, under the conditions of `ViewsAreCoherent` |
| ProtocolLate.LastSnapshotMayBeLate | internal/hub/hub.go:300-313 | A concrete run after which it is not: the final snapshot of a closed game is sent to a connection that has been detached and is attached to another game |
| ProtocolLate.LateOnlyByJoining | internal/hub/hub.go:300-313 | Every run to that world attaches the connection while the closed game's snapshot is still to be sent to it |
| ProtocolTheorems.SnapshotsFollowCommits | internal/hub/actions.go:212-227 | Every snapshot ever sent shows a game as it was after some of its saves, and a connection gets the snapshots of a game in the order of the saves |
| ProtocolTheorems.FinishedGamesAreEmpty | internal/hub/hub.go:295-314 | While nobody is inside its lock, a game that is CLOSED or deleted has no attached connection |
| ProtocolTheorems.ActionsFindOpenGames | internal/hub/actions.go:335-350 | A game action that has passed its checks under the lock finds an open row: withGame never misses it and leaving never fails with a closed game |
| ProtocolTheorems.IndexesAgree | internal/hub/hub.go:135-157 | At every instant a connection is in the set of a game exactly when its own fields say so, no empty set is kept, and a player's connection is authenticated as that player |
| ProtocolTheorems.DisconnectedForGood | internal/hub/hub.go:72-81 | Once a connection's reader has finished, no index mentions the connection at any later time |
| ProtocolPlayers.LiveMeansRegistered | internal/hub/actions.go:127-139 | Every authenticated connection that is not closing is the registered one of its player, or has been replaced by a connection whose reader is about to close it |
| ProtocolPlayers.OneLiveConnectionPerPlayer | internal/hub/actions.go:105-141 | Whenever no replacement is unfinished, no two connections that are not closing belong to one player |
| ProtocolReplies.EveryRequestIsAnswered | internal/hub/actions.go:53-77 | For a connection that is not closing, the direct replies sent to it answer exactly its requests, once each and in order, up to the one being worked on; once it is closing, what was answered is still a prefix of what was asked |
| ProtocolReplies.FailedRequestsWriteNothing | internal/hub/actions.go:79-87 | A request that is answered with an error other than internal has changed no stored player, game or activity time |
| ProtocolReplies.ConfirmedRequestsAreSaved | internal/hub/actions.go:278-298 | A request that is about to be confirmed has been saved: some step that the connection's own reader took while serving it touched the player that authenticates, at the time of that step, or committed to the game it connects to that the player joined or returned, or committed the action's own attempt, from the connection's own seat, to the game the connection is in |
| ProtocolTheorems.RefusalsAreJustified | internal/hub/actions.go:63-73 | When a request is refused as not authenticated, already authenticated or not in a game, that is still so when the refusal is sent |
| ProtocolReasons.AuthenticatedBySecret | internal/hub/actions.go:105-131 | In every run, a connection is authenticated as a player only if an earlier step of its own reader, serving a request to authenticate as that player, found the player stored with exactly the secret that the request presented |
| ProtocolReasons.CredentialsDecide | internal/hub/actions.go:113-122 | Looking the player up refuses for invalid credentials exactly if the store worked and the player is missing or has another secret, with internal exactly if it failed, and goes on exactly if the secret is right |
| ProtocolReasons.RefusalsHaveReasons | internal/hub/actions.go:53-77 | In every run, a request is refused only with a code that it deserved at an earlier step of serving it, by its own contents, the connection's fields and the stored rows at that step, for every code; internal only if the store failed or a player of the game had been deleted |
| ProtocolReasons.ConfirmationsHaveReasons | internal/hub/actions.go:184-199 | In every run, a request is confirmed only if it was to be granted at an earlier step of serving it: the secret was right, the game let the player in, or the rules allowed the action from the connection's own seat |
| ProtocolBackedSteps.GateDecides | internal/hub/actions.go:63-73 | What the gate refuses deserves its code, and everything else goes on as what it asks for |
| ProtocolBackedSteps.LoadDecides | internal/hub/actions.go:148-173 | Looking a game up refuses exactly a wrong secret, a missing or a closed game, or a failing store |
| ProtocolBackedSteps.SeatingDecides | internal/hub/actions.go:191-202 | Under the lock a player who sits in the game gets that seat, another one gets the guest's if it is free and the game waits for a guest, and everybody else is refused for the reason that keeps them out |
| ProtocolReasons.SavesHaveReasons | internal/hub/actions.go:230-298 | Every save of a game is for the task in hand: a granted request to connect to the game, a granted game action from the connection's own seat, or the expiry of an inactive player who sits in it |
| ProtocolReasons.ActionsDoWhatTheySay | internal/hub/actions.go:278-345 | A move locks in that throw for that seat and leaves the other's, a rematch request stands for that seat or restarts the game the other asked for, declining takes the other's request back, leaving closes |
| ProtocolReasons.GamesEndOverdue | internal/hub/hub.go:318-342 | In every run, a game is deleted only by the sweeper, under the game's lock, in a job whose cutoff is after the row's activity time at that very step, with nobody attached and everybody closing whom the job found attached |
| ProtocolReasons.PlayersEndInactive | internal/hub/hub.go:227-257 | In every run, a player is deleted only in a job to expire the player, after a step of it found the player inactive since before the cutoff, and a step found no connection of the player or one that is closing by then |
| ProtocolReasons.JobsAreDone | internal/sweeper/sweeper.go:41-69 | Whenever the sweeper rests after a job, the job has removed its player or game, or has found it missing or active since the cutoff, or was hampered by the store |
| ProtocolReasons.CloseCodesHaveReasons | internal/hub/hub.go:239-341 | A connection gets its close code only for its reason: 1000 for its own failing socket or a shutdown, 4001 from the timer, 4000 from a granted authentication that found it registered, 4002 from a job with an inactive player it was registered for, 4003 from a job with an overdue game it was attached to |
| ProtocolReasons.EventsHaveReasons | internal/hub/actions.go:266-345 | Whatever is sent under a game's lock tells what the goroutine's own steps found: `ok` for what was to be granted, coming and going of the right seat, a rematch request that is pending, a refusal or an end of the game that has been saved for that seat and reason |
| ProtocolDelivery.NewsReachesEverybody | internal/hub/actions.go:266-272 | A saved rematch request, its refusal and the end of a game reach everybody they concern: by the time the lock is given up, every connection attached at the save, but for the doer's, has been sent the event or is closing; so is the final snapshot of a closed game if the store works |
| ProtocolTact.DoersAreNotTold | internal/hub/actions.go:212-227 | Who connects, asks for a rematch, declines one or leaves gets no event about it, and an expiring player's connections are not told that the game is over |
| ProtocolActivity.OnlyOwnActivityCounts | internal/hub/actions.go:123-125 | A stored player's activity time changes only by the player's own doing (authenticating, connecting, acting, creating a game) and only to the time of doing it |
| ProtocolActivity.SavesAreStamped | internal/hub/actions.go:230-235 | A save for a connection stamps the game and the connection's player with the time of the save; a save for an expiry changes no activity time |
| ProtocolCodes.CloseCodesAreExplained | internal/hub/actions.go:135-139 | A connection that closes as replaced has been sent the notice of it, and one that closes as a slow consumer has been sent at least a full queue |
| ProtocolRounds.DetachingEnds | internal/hub/hub.go:159-191 | The retry loop of a detach fails at most twice: while it runs, only the connection's own reader could attach it again, and at most once |
| ProtocolProgress.NobodyIsStuck | internal/hub/hub.go:5-7 | An unfinished goroutine can step, or waits for a game lock whose holder can step: chains of waiting have length one |
| ProtocolProgress.EveryStepDescends | internal/hub/hub.go:227-257 | A step of a busy goroutine lowers a rank of what it has left to do, and no other step raises it |
| ProtocolProgress.EveryRequestEnds | internal/hub/actions.go:44-77 | In every endless run in which whoever is at work and not waiting for a lock steps some time, and whoever waits for a lock that is free again and again gets it, every goroutine comes to rest again and again: every request, disconnection and expiry completes. That every lock becomes free again is proved, not assumed |
| ProtocolSeats.StepOccupied | internal/hub/hub.go:243-256 | A step keeps open games occupied as their status promises exactly if it does not delete a player who sits in an open game |
| ProtocolSeats.DeletingOccupied | internal/store/schema.sql:13-14 | Setting the keys of a deleted player to NULL keeps open games occupied exactly if the player sits in none |
| ProtocolSeats.SeatsStayOccupied | internal/hub/hub.go:227-257 | In every run whose deletions are of players who have not been seated since the expiry listed their games, an open game has a host at every instant, a guest exactly when it is not waiting for one, and the two differ |
| ProtocolSeats.ExpiryRaces | internal/hub/hub.go:235-256 | A concrete run in which a player who has just created a game is expired, and an open game is left without a host |
| ProtocolSeats.ConnectNeverFailsToJoin | internal/hub/actions.go:187-202 | In every such run, at any time, connecting under the lock fails for an error of the store, wrong credentials, a full game or a closed game only: joining never does |
| RulesRuns.AttemptEffect | internal/rules/rules.go:141-219 | Exactly the second throw of a round counts, for its outcome; exactly an accepted rematch clears the outcome and the throws; everything else keeps both |
| RulesRuns.Ledger | internal/rules/rules.go:105-219 | After any run from a new game, each counter is the tally of its outcome over the rounds resolved, and status, throws and outcome fit together, also after CLOSED |
| RulesRuns.CountersAddUp | internal/rules/rules.go:150-199 | Wins and draws add up to the accepted rematches, plus one while an outcome is showing |
| RulesRuns.ClosedStays | internal/rules/rules.go:213-219 | CLOSED is terminal |
| RulesRuns.ArrivalOrderIrrelevant | internal/rules/rules.go:150-180 | Whichever throw of a round arrives first, every later state is the same |
| RulesRuns.StepSymmetric | internal/rules/rules.go:82-91 | From exchanged seats an attempt succeeds with the exchanged state, or fails with the same error |
| RulesRuns.RunSymmetric | internal/rules/rules.go:46-51 | Exchanging the seats in every attempt of a run exchanges the seats, outcome and counters it ends with |
| RulesHistory.RunsAreTold | internal/rules/rules.go:105-219 | After any run from a new game, status, outcome, throws and counters are what an account of the accepted attempts says: who came and left, the throws since the last restart, the rounds before with their winners by the circle of throws, and whose rematch request stands |
| RulesHistory.AttemptsAreTold | internal/rules/rules.go:141-219 | After any run, every attempt is accepted or refused, and for the reason, that the account says |
| RulesHistory.RematchNeedsBoth | internal/rules/rules.go:182-211 | A request restarts the game exactly if the other seat's request was accepted, and neither accepted nor declined since; a seat's second request is refused as already issued, and only the other seat can decline |
| RulesHistory.WinnerIs | internal/rules/rules.go:78-91 | A round goes to the throw that is next after the other in the circle rock, paper, scissors |
| ProtocolSecrecy.OpponentLearnsNothing | internal/rules/rules.go:221-233 | Whatever the interleaving, two runs that differ only in which throws a player locks in, and in which the round is ACTIVE whenever the game's states differ, send every connection that never takes that player's seat the same replies, errors, events and snapshots in the same order, and close it alike, unless it is still live in its seat when another connection takes that seat |
| ProtocolSecrecy.RunsAlike | internal/hub/actions.go:212-227 | In such runs nothing else differs at any time: not the store, the registry, the locks, the progress of any request, or who is sent what when |
| ProtocolSecrecy.WrongSeats | internal/hub/actions.go:220-226 | Of all connections that are about to be sent a snapshot by a listing, exactly those that sit in the seat whose player is just connecting get one that was rendered for the other seat |
| ProtocolLeak.ThrowsMayBeShown | internal/hub/actions.go:207-226 | A concrete run in which a live connection of the host is sent the rendering for the guest, with the guest's throw, while the round is ACTIVE |
| ProtocolLeak.ShownOnlyBeside | internal/hub/actions.go:207-226 | Every run to that world has the connection take the guest's seat, or another connection the host's seat beside it |
| ProtocolSecrecy.RevealedWhenOver | internal/hub/snapshot.go:80-99 | Two games that differ in a locked-in throw look the same to the opponent exactly while they are ACTIVE |
| ProtocolSecrecy.WhoSeesWhat | internal/hub/snapshot.go:67-99 | A snapshot shows a locked-in throw to its owner always and to the opponent exactly when the game is not ACTIVE, and whether it is locked in to both |
| ProtocolScores.SnapshotsSayWhatHappened | internal/hub/snapshot.go:67-99 | Every snapshot sent of a game that began in the initial state says of throws, lock-ins, outcome, status, draws and each seat's wins exactly what the attempts saved by then tell |
| Snapshots.SeatsShown | internal/hub/snapshot.go:39-65 | A snapshot shows a seat exactly if a stored player sits there, under the stored name, and as connected exactly if a live connection of the player is attached |
| ProtocolPresence.ClientsSeeWhoIsThere | internal/hub/hub.go:159-191 | A client that shows who was connected in the last snapshot of its game, and who came and went since, shows every seat with a live connection and only seats with a connection, whenever nobody is inside the lock and no snapshot has failed since the last broadcast. It needs that at the start nobody plays the game against itself, and that no step detaches a connection from a seat in which another live one sits, deletes the player of an attached connection, or attaches a connection whose player has been deleted |
| ProtocolPresence.ClientsSeeTheGame | internal/hub/snapshot.go:57-63 | While moreover no attached connection is closing, the client shows exactly the state and the connected seats that the server would send it now: no event is missing |
| ProtocolPresence.GoingOverlooks | internal/hub/hub.go:183-186 | Telling a client that somebody has gone makes it overlook a live connection exactly if one still sits in that seat |
| ProtocolLeak.SeatsMayBeOverlooked | internal/hub/hub.go:178-186 | A concrete run after which a client shows a seat as empty in which a live connection sits |
| ProtocolLeak.OverlookedOnlyBeside | internal/hub/hub.go:178-186 | Every run to that world from games whose players differ goes through a step that `ClientsSeeWhoIsThere` excludes |
| Snapshots.BuildView | internal/hub/snapshot.go:39-65 | The loops find the names of the stored players in the seats, and mark a seat connected exactly if a connection of its player is attached and not closing; they fail exactly if a lookup they need fails |
| Timestamps.TextOrderIsTimeOrder | internal/store/store.go:35-41 | Stored times compare as text exactly as they compare as times |
| Timestamps.ParseUndoesFormat | internal/store/store.go:41-43 | Parsing a stored time gives back the time, nanosecond by nanosecond |
| Timestamps.TrimmedFractionsMisorder | internal/store/store.go:35-39 | With trailing zeros trimmed from the fraction, the earlier of two times comes first in text exactly unless both are in one second and the trimmed digits of its fraction begin those of the other's |
| Timestamps.WholeSecondsMisorder | internal/store/store.go:35-39 | So trimmed, no whole second would come before the later times of that second |
| Sweeps.QueryAgreesWithCheck | internal/store/store.go:256-263 | The queries that compare texts select exactly the rows that the later check by time accepts |
| Sweeps.Sweeper.CloseForExpiredPlayer | internal/hub/hub.go:259-278 | In the store, closes the game if the player has an open seat in it and changes nothing else, its activity time included |
| Sweeps.Sweeper.ExpirePlayer | internal/hub/hub.go:227-257 | In the store, deletes a player inactive since before the cutoff, and leaves its open games CLOSED and its seats empty; does nothing otherwise |
| Sweeps.Sweeper.ExpireGame | internal/hub/hub.go:318-342 | In the store, deletes exactly the game, if it has been inactive since before the cutoff |
| Sweeps.Sweeper.SweepOnce | internal/sweeper/sweeper.go:42-69 | An uninterrupted sweep without errors leaves exactly what its specification says |
| Sweeps.WhatSurvives | internal/sweeper/sweeper.go:41-69 | Exactly the players and games active since their cutoffs survive; of a surviving game exactly the seats of expired players are emptied, it is CLOSED exactly if it was or lost a player while open, and its throws, counters and activity time are as they were |
| Sweeps.SweepingTwice | internal/sweeper/sweeper.go:42-69 | A second sweep at the same time does nothing |
| Discriminators.Players.FreeDiscriminator | internal/store/store.go:190-215 | The scan returns the least unused discriminator, and reports exhaustion exactly if all 10,000 are taken |
| Discriminators.Players.CreatePlayer | internal/store/store.go:146-188 | Whatever others insert between its statements, the table holds what they inserted and, exactly if it succeeds, the returned player, who has the first pick that was free when tried, or the least discriminator that was free when scanned for after every pick had been taken; it never fails for a taken name, for exhaustion only if every pick had been taken and every discriminator is, and for the id only if that is stored |
| Discriminators.LosingARaceShrinks | internal/store/store.go:169-187 | Every race lost in the fallback loop leaves fewer free discriminators |
| Discriminators.DisplayNamesDiffer | internal/store/store.go:54-58 | No two stored players show the same display name |
| Registry.AddConnAgrees | internal/hub/hub.go:55-61 | Registering a new connection keeps the indexes in agreement |
| Registry.BindAgrees | internal/hub/actions.go:127-131 | Authenticating a connection keeps the indexes in agreement |
| Registry.AttachAgrees | internal/hub/hub.go:134-143 | Attaching keeps the indexes in agreement exactly if the connection is in no other game |
| Registry.DetachAgrees | internal/hub/hub.go:145-157 | Detaching keeps the indexes in agreement and takes the connection, and nobody else, out of every game |
| Registry.DetachSetAgrees | internal/hub/hub.go:280-286 | So does detaching several connections of one game |
| Registry.ForgetForgets | internal/hub/hub.go:72-81 | After a detached connection is removed no index mentions it; a newer connection of its player stays |
| Hubs.Hub.NewConn | internal/hub/hub.go:55-61 | The maps change as the registry function says |
| Hubs.Hub.Register | internal/hub/actions.go:127-131 | The connection becomes its player's, and the one before is returned |
| Hubs.Hub.AttachLocked | internal/hub/hub.go:134-143 | The maps and the connection's fields change as the registry function says |
| Hubs.Hub.DetachLocked | internal/hub/hub.go:145-157 | So they do here; the result tells whether there was anything to detach |
| Hubs.Hub.DetachPlayer | internal/hub/hub.go:280-286 | Exactly the expiring player's connections to the game are detached |
| Hubs.Hub.DetachEach | internal/hub/hub.go:300-308 | Detaching one after the other is detaching together |
| Hubs.Hub.AttachedLocked | internal/hub/hub.go:119-126 | Lists every attached connection exactly once |
| Hubs.Hub.Remove | internal/hub/hub.go:75-80 | Removes the connection from the indexes unless its player has a newer one |
| Hubs.Hub.CloseAll | internal/hub/hub.go:83-94 | Every registered connection is closing afterwards, and those that were before keep their code |
| Hubs.Hub.UseLock | internal/hub/hub.go:97-105 | Finds or makes the game's lock object and counts the caller |
| Hubs.Hub.DropLock | internal/hub/hub.go:108-116 | Stops counting the caller and drops the entry with the last user |
| Conns.Conn.Send | internal/hub/conn.go:82-97 | Enqueues the message, or closes the connection with 4004 if 32 are queued, or does nothing if it is closing |
| Conns.Conn.Close | internal/hub/conn.go:51-57 | The first close code wins |
| Conns.WriteLoop | internal/ws/ws.go:149-185 | The loop does what its specification says turn by turn, whatever is sent or closed meanwhile: messages are written in the order they were enqueued and none is skipped, and everything enqueued is written before a close frame whose code is not 4004 unless a write fails |
| Conns.WriteDelivers | internal/ws/ws.go:149-185 | So says the specification, for all turns and arrivals |
| Conns.WriteEnds | internal/ws/ws.go:154-183 | One message is written in each turn that can write; the loop is cut off by exactly a cancelled turn or a failed write, goes on to the close frame with the connection's code when it finds the connection closing, and is still running only when the turns have run out, in the flush at one message for each; turns for every message and the frame suffice if nobody enqueues any more |
| Conns.FlushEnds | internal/ws/ws.go:161-180 | A requested close gets its frame after all that was enqueued |
| Conns.Drain | internal/ws/ws.go:165-178 | Flushes the queue unless a write fails |

## Left out

- The WebSocket library, ping loop, authentication timer, HTTP handlers and upgrade: input and output. A timer or a
  failing socket appears as a close or a disconnection at an arbitrary moment.
- SQL text, pragmas and the driver: a statement or transaction is atomic and may fail without effect.
- Secret generation, hashing and comparison, and random ids: secrets are compared by digest, and new ids are fresh.
- JSON: actions arrive decoded, with a case for malformed ones; a move that is missing or unknown is one case.
- Configuration, logging, name validation and shutdown wiring.
- Calendar arithmetic: a time is its civil UTC fields with a year of four digits.
- The conversion of a time to UTC before it is formatted.
- Protocol: a send is one step there; that its check and its enqueueing are two is modelled in `Conns`, where a send
  may pass the check before a close and enqueue after it.
- Protocol: the lookups of names before a snapshot, and the look at the attached connections after them, are one step.
- Protocol: the `ok` of an authentication carries no display name.
- Protocol: the writer takes messages from the queue one by one; `Conns` has its loop.
- ProtocolTheorems.ViewsAreCoherent: speaks of the last snapshot of the game a connection is attached to; the last
  snapshot of any game is in `ProtocolLast` (see Findings).
- ProtocolTheorems.StoredGamesKeepTheLedger: says nothing about the counters of games stored before the server
  started, because their history is not stored.
- ProtocolReasons.RefusalsHaveReasons: the reason was met at some step of serving the request; that the decisive lookup
  is the one is in `CredentialsDecide`, `LoadDecides`, `SeatingDecides` and `GateDecides`.
- ProtocolDelivery.NewsReachesEverybody: being sent a message is being enqueued it; a message that finds a full queue
  closes the connection instead.
- ProtocolProgress.EveryRequestEnds: assumes a fair scheduler and mutexes that do not starve a waiter, which the
  runtime is to provide; it does not bound waiting time.
- ProtocolPresence.ClientsSeeTheGame: compares the state and the connected seats; the names and the players in the seats
  are not part of what is compared.
- ProtocolSecrecy.OpponentLearnsNothing: compares what is sent, not when.
- Sweeps: the connections that an expiry detaches and closes are in `Protocol`, and so are its interleavings.
- Discriminators.Players.CreatePlayer: other writers insert players but do not delete any.
- Hubs: registry sections and map updates are methods; the sequences of them that make up a request are in `Protocol`.
