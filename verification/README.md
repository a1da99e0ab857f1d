# A model of the claude-net hub

claude-net connects coding-agent sessions through a hub: agents register names over WebSockets, join teams, send each
other messages that are kept in a mailbox, and have their sessions mirrored. Everything lives in memory, changed by
frames, closes and timers, so what can go wrong is that the maps stop agreeing, or that a timer does something it
should no longer do. This project models those state machines in Dafny and proves what holds in all their runs.

One module for each component:

- `Names`, `Registry` (with `RegistryHistory` and `RegistryRules`), `Teams`, `Mailbox`, `Router`, `Hub` (with
  `HubHistory`, `HubLapses` and `HubRules`): names and addresses; who is online, who is waited for, who was online
  together; teams; the single-slot mailbox; routing; and the steps of the sockets that update all of them.
- `KeepWarm` (with `KeepWarmCap` and `KeepWarmRules`), `Scheduler` (with `SchedulerRules`), `RateLimit`, `HubClient`
  (with `HubClientRuns`, `HubClientTimes` and `ReconnectDelays`): machines driven by timers and a clock.
- `MirrorSessions` (with `MirrorRules`), `Ledger` (with `LedgerRules`): the store of mirrored sessions, and what their
  frames say about them.
- `LogRing`, `JsonlTail`, `JsonlHistory`: rings and the reassembly of lines from chunks.
- `ShellWords`, `SessionNames`: quoting for the POSIX shell (sections 2.2.1 and 2.2.2 of the Shell Command Language
  volume of IEEE Std 1003.1), and the names of launched sessions.
- `Text`, `JsMap`, `Timers`, `RingIndex`, `Products`, `Options`: lines, JavaScript's insertion-ordered maps, armed
  timers, ring indices, products, optional values.

How the modules are built. A class has the fields of the original object, and each of its methods is proved to take
the abstract value of the object to the one that a pure step function gives. The runs of a machine are folds of that
function over arbitrary inputs, and the main results speak of all runs, often by means of a ghost history of what
happened. The modules called rules say, without the step functions, what a step of any run changes: which entries,
slots, timers and tasks are there after it, exactly when, and that nothing else is touched. Inputs carry what the
program cannot decide itself: the clock, whether sending or spawning works, how much a read returns, when an armed
timer fires (at its due time or any time later).

Where a property does not hold in every run, the exact condition is proved:

- Teams and entries (`Hub.ListedIffOrderly`, `Hub.AgreeIffNeat`). A frame that joins or leaves a team from a socket whose
  name is offline (a process came back on a new socket before the hub saw the old one close, and then the new one
  closed), a rename onto a name that has teams of its own, and a rename that is cut short because the answer
  cannot be sent to the socket (after the registry was changed, before the mailbox and the teams are) break agreement;
  `HubLapses` has a run for each.
- The floor between two pings (`KeepWarm.FloorIffRemembered`): the next ping may come before it if and only if the last
  one was forgotten.
- The limit on the pings of one enabled period (`KeepWarmCap.LimitIffRemembered`): it can be exceeded if and only if
  something was forgotten since the first ping of the period. Closing a session without a host does that to an enabled
  session of another host whose name holds the separator (`KeepWarmCap.ForgottenWhileEnabled`,
  `KeepWarmCap.MistakeGoesOver`), and nothing does it to any other (`KeepWarmCap.PlainCap`).
- What a direct send reports (`Router.DirectTellsTheTruth`): a mailbox without room keeps nothing of what it reports as
  recorded.
- A transcript file that another one replaces (`JsonlTail.ReplacedIff`): the tail reads the new file from its beginning
  exactly if that is smaller than what was read, against the comment at src/mirror-agent/jsonl-tail.ts:70; else it goes
  on in the middle of the new file (`JsonlTail.AlwaysDelivers`).
- The mirror store (`MirrorSessions.RunKeeps`, `MirrorSessions.PlainRunKeeps`). A session created without a host, while
  several hosts hold its id, replaces a closed session without a host, whose retention timer then deletes it while it is
  open (`MirrorSessions.OpenSessionIsLost`).
- Chunking of log writes past the cap for partial lines (`LogRing.ChunkingExact`).
- The wait announced by the rate limiter (`RateLimit.RetryIsExact`, `RateLimit.NoWaitExact`): a caller that comes back
  exactly then is still refused, against the comment at src/hub/rate-limit.ts:63-66.
- Names with an early `@` are accepted although they are then parsed in the legacy form (`Names.PrintOfParse`).
- The cap of 64 background tasks (`Ledger.WithinLimitIff`), against the comment at src/hub/mirror.ts:292-293: a monitor
  call at the limit exceeds it, and without a bound (`Ledger.MonitorCallsAreNotBounded`).
- What a launch evicts (`Ledger.LaunchIsKept`): a task that is launched again keeps its old place, so that over the limit
  it can evict itself (`Ledger.WakeupIsLost`).
- The transcript of a mirrored session may outgrow its ring (`MirrorSessions.TranscriptBound`,
  `MirrorSessions.TranscriptsOutgrowRing`).
- A held socket and a pending reconnect (`HubClientRuns.HoldsBothIff`), and the number of attempts without a backoff
  (`Scheduler.NoBackoffNoBound`).

## Model

| member | source | states |
|---|---|---|
| `Names.ParseOfPrint` | src/hub/registry.ts:654-681 | `parseName` gives back the three parts of `session:user@host` if and only if there is no `:` in the session and no `@` in the session or the user |
| `Names.PrintOfParse` | src/hub/registry.ts:603-681 | a valid name is put together again from its parts if and only if its first `@` comes after its first `:`; then no part is empty |
| `Names.PrintedIsValid` | src/hub/registry.ts:603-611 | a name printed from parts without early separators is accepted for registration if and only if no part is empty |
| `Names.SystemNameIsReserved` | src/hub/registry.ts:595-611 | `system@claude-net` can never be registered |
| `Names.OwnAddressesMatch` | src/hub/registry.ts:620-652 | the full name, `session:user`, `user@host` and the plain session reach the name they were made from; the plain user and the plain host do if and only if the word matches no name at a higher rank |
| `Names.PlainWord` | src/hub/registry.ts:644-651 | exactly when a plain word reaches a name: as session, else as user if it is nobody's session, else as host if it is nobody's session or user |
| `Names.MatchesFit` | src/hub/registry.ts:620-652 | an address matches only names it fits, and matches none only if it fits none |
| `Names.MatchedIff` | src/hub/registry.ts:620-652 | an address matches a name if and only if it means it, by the parts of the name: the full name, the first two pieces around `:` or `@`, or the ranking of a plain word |
| `Registry.AdmittedKeeps` | src/hub/registry.ts:178-319 | an accepted registration (rename, reclaim, restore, renewal) keeps the registry consistent: valid names, one name for each socket, nobody online and waited for at once, timers exactly for those waited for |
| `Registry.AdmittedEntries` | src/hub/registry.ts:213-319 | who is online after a registration, with which socket and teams, and who is still waited for; nobody else changes |
| `Registry.LeftKeeps` | src/hub/registry.ts:353-387 | going offline keeps the registry consistent |
| `Registry.LeftEntries` | src/hub/registry.ts:353-387 | going offline changes nobody else and hands the teams over to the entry that waits |
| `Registry.GivenUpKeeps` | src/hub/registry.ts:367-373 | giving up waiting for a name keeps the registry consistent |
| `Registry.HeldIs` | src/hub/registry.ts:213-221 | the scan for a rename finds another name of the socket if there is one |
| `Registry.HostPidIs` | src/hub/registry.ts:327-333 | the scan for host and process finds a matching agent if there is one |
| `Registry.Registry.TouchSeenName` | src/hub/registry.ts:125-135 | the name becomes the most recent seen one; the oldest goes, with its intervals, past the capacity |
| `Registry.Registry.OpenInterval` | src/hub/registry.ts:141-149 | a new open interval, of at most eight |
| `Registry.Registry.CloseInterval` | src/hub/registry.ts:152-157 | the open interval ends now |
| `Registry.VerdictIs` | src/hub/registry.ts:178-244 | a request is refused for its name if and only if that is invalid, as taken if and only if another socket is online with the name and not known to be the same process; else it is told exactly whether the name was waited for and which name it gives up |
| `Registry.Registry.Register` | src/hub/registry.ts:178-319 | the answer, in terms of the entries and the request, nothing changed when it is refused, and otherwise the specified state, which is consistent |
| `Registry.Registry.Admit` | src/hub/registry.ts:246-319 | the updates after the last rejection, in their order, give the specified state |
| `Registry.Registry.TeamsOf` | src/hub/registry.ts:213-244 | teams come from the old name, else from the displaced entry, else from the entry that waited |
| `Registry.Registry.FindHeld` | src/hub/registry.ts:213-221 | the loop finds the first other name of the socket |
| `Registry.Registry.Unregister` | src/hub/registry.ts:353-387 | the state after a name goes, with the guard on the socket |
| `Registry.Registry.OnTimeout` | src/hub/registry.ts:367-373 | hands out the name and its teams and stops waiting for it |
| `Registry.Registry.FindByHostPid` | src/hub/registry.ts:327-333 | the first agent of that host and process |
| `Registry.Registry.UnregisterByHostPid` | src/hub/registry.ts:342-351 | takes that agent offline, whatever its socket does, and gives the entry that went |
| `Registry.Registry.Resolve` | src/hub/registry.ts:389-462 | for all four address forms the live lookup is `matchNames` over the online names: found if one matches, ambiguous if several do, offline if none does |
| `Registry.Registry.OnePass` | src/hub/registry.ts:422-435 | the one pass over the entries gives the same as selecting by session, by user and by host in turn |
| `Registry.Registry.FilterAgents` | src/hub/registry.ts:438-446 | the loop selects exactly the entries whose name meets the criterion, in order |
| `Registry.Registry.ResolveSeenNameOrAmbiguous` | src/hub/registry.ts:512-529 | the lookup among all seen names: one match, or the last of several that were never concurrent for a two-part address, else ambiguous |
| `Registry.Registry.CheckConcurrent` | src/hub/registry.ts:532-544 | true if and only if two of the names have overlapping intervals |
| `Registry.IntervalsOverlap` | src/hub/registry.ts:34-47 | true if and only if some interval of one list meets some interval of the other |
| `Registry.Registry.SetChannelCapable` | src/hub/registry.ts:552-557 | changes one flag of one entry and keeps consistency |
| `RegistryHistory.RunKeeps` | src/hub/registry.ts:178-387 | every run keeps the registry consistent |
| `RegistryHistory.StepEvolves` | src/hub/registry.ts:125-387 | each operation does one of four things to the intervals of each name: nothing, start one (after ending a displaced one), end one, or forget all because of a rename or an eviction |
| `RegistryHistory.RunRemembers` | src/hub/registry.ts:125-157 | in every run each interval list tells, of every moment of the run, whether the name was online then and recorded, and how often it started since |
| `RegistryHistory.TraceIsRun` | src/hub/registry.ts:178-387 | the moments of the trace are the states of the run |
| `RegistryHistory.IntervalsInOrder` | src/hub/registry.ts:34-47 | in every run each list is ordered and disjoint, has at most eight intervals, and ends open if and only if the name is online and was not evicted since it came online |
| `RegistryHistory.OverlapMeans` | src/hub/registry.ts:34-47 | two lists overlap if and only if the names were online at one moment that both still remember |
| `RegistryHistory.ConcurrentIffTogether` | src/hub/registry.ts:532-544 | in every run names count as concurrent if and only if two of them were online and recorded at the same moment, and since then neither was renamed away, evicted from the seen names, or back online eight times |
| `RegistryHistory.TogetherIsOnline` | src/hub/registry.ts:532-544 | so names that count as concurrent were online at the same moment |
| `RegistryHistory.RunSeen` | src/hub/registry.ts:125-135 | in every run the seen names are exactly those registered and neither renamed away nor evicted since, in the order of their last registration |
| `RegistryHistory.OldestIsEvicted` | src/hub/registry.ts:125-135 | the name that is evicted for another one is, of the rest, the one registered least recently |
| `RegistryHistory.SeenIsBounded` | src/hub/registry.ts:125-135 | there are never more seen names than the capacity |
| `RegistryHistory.TwoPartAddress` | src/hub/registry.ts:485-529 | a two-part address for several seen names stands for the one registered last, unless two of them were online together as far as is remembered; then it is ambiguous |
| `Teams.JoinedMembers` | src/hub/teams.ts:12-20 | joining adds exactly one membership; no team is empty, nobody is in a team twice |
| `Teams.LeftMembers` | src/hub/teams.ts:22-32 | leaving removes exactly one membership and drops a team that becomes empty |
| `Teams.LeftAllMembers` | src/hub/index.ts:168-173 | the cleanup removes one name from exactly the given teams |
| `Teams.RenamedMembers` | src/hub/teams.ts:56-62 | a rename moves every membership of the old name to the new one, and none else |
| `Teams.JoinsLast` | src/hub/teams.ts:12-20 | who joins comes last, and who is a member already keeps his place |
| `Teams.LeavesInOrder` | src/hub/teams.ts:22-32 | leaving does not change the order of those who stay |
| `Teams.RenamedLast` | src/hub/teams.ts:56-62 | who is renamed comes last, the others keep their order |
| `Teams.Teams.Join` | src/hub/teams.ts:12-20 | new rosters and the members reported |
| `Teams.Teams.Leave` | src/hub/teams.ts:22-32 | new rosters and the number of members left |
| `Teams.Teams.GetTeamsForAgent` | src/hub/teams.ts:34-42 | exactly the teams the name is in |
| `Teams.Teams.RenameMember` | src/hub/teams.ts:56-62 | the loop over all teams swaps the names in each |
| `Teams.Teams.LeaveAll` | src/hub/index.ts:169-173 | the loop of the timeout cleanup, in any order of the teams |
| `Mailbox.CapContent` | src/hub/mailbox.ts:27-33 | content of up to 16000 characters is kept as it is; longer content becomes a beginning of it and the marker, of exactly 16000 characters together |
| `Mailbox.CapReplyTo` | src/hub/mailbox.ts:35-43 | a reply reference of up to 500 characters is kept as it is; a longer one becomes a beginning of it and the marker, of exactly 500 characters together |
| `Mailbox.RunKeeps` | src/hub/mailbox.ts:45-104 | in every run, renames included, each slot is under its own recipient and within the caps, and there are no more slots than the capacity |
| `Mailbox.RekeyKeepsLater` | src/hub/mailbox.ts:79-103 | after a rename the slot holds the later of the two messages, the destination's on a tie; no other slot changes |
| `Mailbox.RekeyedKeeps` | src/hub/mailbox.ts:95-103 | a rename never makes the mailbox larger |
| `Mailbox.RecipientsByLastDeposit` | src/hub/mailbox.ts:53-70 | the reference order: everyone ever deposited to, by last deposit |
| `Mailbox.HoldsLatestOfMostRecent` | src/hub/mailbox.ts:53-70 | without renames the slots are exactly those of the most recently deposited-to recipients, as many as fit, in that order, each with its latest capped message and its first reading |
| `Mailbox.Mailbox.Deposit` | src/hub/mailbox.ts:53-70 | new slots: the recipient last, the oldest gone past the capacity |
| `Mailbox.Mailbox.MarkRead` | src/hub/mailbox.ts:79-84 | sets the time of the first reading |
| `Mailbox.Mailbox.Rekey` | src/hub/mailbox.ts:95-103 | new slots after a rename |
| `Router.FatesAddUp` | src/hub/router.ts:371-455 | each member other than the sender meets exactly one of five fates: delivered, no channel, transport error, offline and known, offline and unknown |
| `Router.TeamHolds` | src/hub/router.ts:371-455 | of the recipients of a team message exactly the last ones hold it afterwards, as many as the mailbox has room for, each with the outcome of his own fate |
| `Router.TeamIsTold` | src/hub/router.ts:371-455 | the record such a recipient holds gives the reason that is true of him: offline and seen, online without a channel, online with a channel that fails, or none if he got it |
| `Router.CountIsSize` | src/hub/router.ts:371-455 | the two counts of a team send are the sizes of the sets of such members |
| `Router.FateIs` | src/hub/router.ts:371-455 | each reason is given if and only if it is true |
| `Router.NoticeIsTold` | src/hub/router.ts:505-585 | a notice that does not reach its addressee is recorded as skipped, with the true reason, if and only if his slot holds no undelivered, unread message of an agent, and there is room |
| `Router.DirectTellsTheTruth` | src/hub/router.ts:107-312 | a direct send reports offline, no channel, transport error or delivery if and only if that is true of the one the address means, and records the same in his slot if and only if the mailbox has any room; a send that finds nobody, or too many, changes no slot |
| `Router.AddresseeIsKnown` | src/hub/router.ts:169-234 | whoever an address finds is online or was seen, so the message is never lost without a record |
| `Router.SeenIsOffline` | src/hub/router.ts:169-234 | a name found only among the seen ones is not online |
| `Router.DepositSpares` | src/hub/mailbox.ts:53-70 | a deposit changes another slot if and only if that is the oldest and there is no room for a new one |
| `Router.NoticeSpares` | src/hub/router.ts:505-585 | an unseen agent message of anyone survives a notice if and only if it is not the oldest slot evicted for a new one |
| `Router.Router.RouteDirect` | src/hub/router.ts:107-312 | malformed content and reply references are refused before anything happens; the dashboard is answered by presence; else the result and the slots are those of the addressee's fate |
| `Router.Router.RouteToAgent` | src/hub/router.ts:169-312 | live match, else seen match, else nothing; ambiguity records nothing |
| `Router.Router.RouteToEntry` | src/hub/router.ts:236-312 | no channel, transport error or delivered is reported if and only if it is true, and recorded |
| `Router.Router.RouteTeam` | src/hub/router.ts:314-473 | the two counts are the numbers of members who got it and who have no channel; refused if neither is positive; the `mailbox` flag says whether any member is online or seen; the slots are those of all deposits in member order |
| `Router.Router.PostTo` | src/hub/router.ts:371-455 | one member: the reason that is true of him, and his slot |
| `Router.Router.HasUnreadAgentMessage` | src/hub/router.ts:93-101 | true if and only if the slot holds an undelivered, unread message of an agent |
| `Router.Router.RouteSystemNotification` | src/hub/router.ts:505-585 | delivered without a deposit, or skipped with the true reason, and recorded unless an unseen message is in the slot |
| `Router.Router.RecordNotice` | src/hub/router.ts:522-537 | the guarded deposit |
| `Hub.RunKeeps` | src/hub/ws-plugin.ts:212-712 | every run keeps the registry, the teams, the mailbox and the sockets consistent |
| `Hub.AlwaysConsistent` | src/hub/ws-plugin.ts:212-712 | no team is empty, nobody is online and waited for at once, those waited for are exactly those with an armed timer, a socket holds at most one name, mail goes only to names that were registered, and the hub's own name is none of them |
| `Hub.StepAgrees` | src/hub/ws-plugin.ts:232-533 | exactly the orderly steps keep every team of an entry listing its name, and exactly the neat ones keep full agreement of teams and entries |
| `Hub.ListedIffOrderly` | src/hub/ws-plugin.ts:490-533 | throughout a run each team in an online or disconnected entry's set lists that name, if and only if no name that is waited for leaves such a team through a stale socket, and every rename is carried through or has nothing to carry |
| `Hub.AgreeIffNeat` | src/hub/ws-plugin.ts:293-302 | throughout a run the members of each team are exactly those whose entry has it, if and only if moreover stale sockets add no membership and nobody renames himself to a name with teams his old name lacks |
| `Hub.CurrentIsNeat` | src/hub/ws-plugin.ts:490-533 | frames of sockets that own their name are orderly when renames are carried through, and neat when those are to names that are neither waited for nor taken over |
| `HubLapses.LeavingOffline` | src/hub/ws-plugin.ts:512-533 | a run whose entries are no longer listed: a process reclaims its name on a new socket, joins a team on it, the new socket closes, and the old socket, still on record, leaves the team |
| `HubLapses.JoiningOffline` | src/hub/ws-plugin.ts:490-510 | a run in which a team gets a member whose entry does not have it: a join on the old socket of such a process, after the new one closed |
| `HubLapses.AfterReclaim` | src/hub/registry.ts:223-244 | after every reclaim the old socket is still on record under the name that the new one is online with |
| `HubLapses.RenameCutShort` | src/hub/ws-plugin.ts:272-302 | a run with a rename whose answer cannot be sent: the new entry has teams that list only the old name |
| `HubLapses.RenameOntoMember` | src/hub/ws-plugin.ts:293-302 | a run with a rename to a name that another socket of the same process holds, which has a team |
| `Hub.RegisteredAgrees` | src/hub/ws-plugin.ts:212-302 | the exact effect of a registration on agreement, completed or cut short |
| `Hub.NoticesSpareUnseen` | src/hub/router.ts:505-585 | in every run a notice changes no unseen agent message but the oldest, and that only for want of room for a slot its addressee did not have |
| `Hub.Hub.OnRegister` | src/hub/ws-plugin.ts:212-302 | the registry, then the socket, then (on a rename) the mailbox and the teams |
| `Hub.Hub.OnJoinTeam` | src/hub/ws-plugin.ts:490-510 | team and entry get each other |
| `Hub.Hub.OnLeaveTeam` | src/hub/ws-plugin.ts:512-533 | team and entry lose each other |
| `Hub.Hub.OnClose` | src/hub/ws-plugin.ts:691-704 | a stale close changes nothing but the socket's own record |
| `Hub.Hub.OnTimeout` | src/hub/index.ts:168-173 | the teams lose the name, and the registry stops waiting for it |
| `Hub.Hub.OnOrphan` | src/hub/ws-host.ts:193-202 | the agent of a dead process goes offline, and its socket is the one that is told to close |
| `HubHistory.RegistryRuns` | src/hub/ws-plugin.ts:212-712 | every run of the hub is, for its registry, a run of the registry |
| `HubHistory.ConcurrentInHub` | src/hub/registry.ts:532-544 | the exact meaning of concurrency holds inside every run of the hub |
| `RegistryRules.AcceptedIff` | src/hub/registry.ts:178-246 | in every run a request puts its name online on its socket if and only if the name is valid and not held by another process; otherwise nothing changes |
| `RegistryRules.ComesOnline` | src/hub/registry.ts:246-319 | with what an accepted request comes online, field by field: teams from the old name, else from the entry under the name, else from the entry that waited; everybody else stays, but for the name given up |
| `RegistryRules.TakenOver` | src/hub/registry.ts:222-244 | in every run a name passes from one socket to another only by a request for it with a process id that is known and the same as that of the entry it takes over |
| `RegistryRules.OfflineIff` | src/hub/registry.ts:246-387 | in every run a name goes offline if and only if an accepted request of its socket gives it up, or it leaves with its own socket or none given, or it is the first agent of a process reported dead |
| `RegistryRules.FirstIs` | src/hub/registry.ts:327-333 | the scan for a process finds the first agent that fits |
| `RegistryRules.WaitedFor` | src/hub/registry.ts:353-387 | who goes offline, other than by a rename, is waited for if and only if he was in a team, with his teams, until one timeout later |
| `RegistryRules.StopsWaiting` | src/hub/registry.ts:288-373 | waiting ends if and only if its own timer fires or the name is registered; until then entry and timer stay as they are |
| `RegistryRules.WaitingSince` | src/hub/registry.ts:353-387 | in every run whoever is waited for went offline in some step, and his timer is due one timeout after it |
| `RegistryRules.LiveLookup` | src/hub/registry.ts:389-462 | in every run a live lookup finds the one online name that the address means, nobody if it means none, and reports several otherwise |
| `RegistryRules.SeenLookup` | src/hub/registry.ts:512-529 | in every run a lookup among the seen names finds the only one the address means, and nobody if it means none; if it has not just two parts, several are ambiguous |
| `HubRules.SocketsKnow` | src/hub/ws-plugin.ts:232-291 | in every run a socket is on record under the name of its last accepted registration, until it closes |
| `HubRules.MembersChange` | src/hub/ws-plugin.ts:232-533 | in every run exactly which memberships a step changes: joining, leaving, a completed rename, and a timeout |
| `HubRules.MailFollows` | src/hub/ws-plugin.ts:293-302 | in every run a completed rename leaves no slot under the old name and the later of the two messages under the new one, addressed to it (on a tie the one that was there); no other slot changes, and no other registration changes any |
| `HubRules.MailIsRead` | src/hub/ws-plugin.ts:570-628 | reading stamps the reader's own slot once; nothing but mail, renames and reading touches the mailbox |
| `HubRules.AddresseeIs` | src/hub/router.ts:169-202 | in every run an address stands for the one online name that it means, and if it means none of those online, for the one that it stands for among the seen names |
| `HubRules.SendIsTold` | src/hub/router.ts:169-312 | in every run, what the slot of the one a sender means tells after the send |
| `HubRules.TeamSendIsTold` | src/hub/router.ts:371-455 | in every run, what the slot of each member tells after a send to the team |
| `HubRules.NoticeInHub` | src/hub/router.ts:505-585 | in every run, what the slot of the one a notice is for tells after the notice |
| `HubRules.NobodyIsTold` | src/hub/router.ts:169-234 | a send or a notice that finds nobody, or too many, changes no slot |
| `HubRules.SendSpares` | src/hub/mailbox.ts:53-70 | another name's slot survives a send if and only if it is not the oldest one evicted for a new one |
| `HubHistory.StepAsks` | src/hub/ws-plugin.ts:212-712 | what each step of the hub asks of the registry |
| `KeepWarm.SidOfKeyExact` | src/hub/keep-warm.ts:173-181 | the session id is read back from a key if and only if the host has no separator in it |
| `KeepWarm.RunKeeps` | src/hub/keep-warm.ts:230-440 | every run keeps items, timers and the two counters in step with the past of each key |
| `KeepWarm.ItemsMatchTimers` | src/hub/keep-warm.ts:230-329 | enabled items and armed timers are in one-to-one correspondence, each under its own key |
| `KeepWarm.PingFloor` | src/hub/keep-warm.ts:353-366 | in a run without forgetting, (j - i) * recheckMs lies between the i-th and the j-th ping of a session |
| `KeepWarm.PingFloorBetween` | src/hub/keep-warm.ts:353-366 | in any run, between two pings of a session with no forgetting between them, each ping adds recheckMs |
| `KeepWarm.FloorIffRemembered` | src/hub/keep-warm.ts:240-294 | after the last ping of a session, in any run not stopped and for every time before the floor: a continuation that forgets nothing and pings next at that time exists if and only if the last ping was forgotten |
| `KeepWarm.PingedAgain` | src/hub/keep-warm.ts:230-263 | from every such state without a remembered ping, disabling, enabling and the next timer ping the session at any chosen time |
| `KeepWarm.TwoPingsAtOnce` | src/hub/keep-warm.ts:288-294 | such runs exist for every session and every configuration that pings at all: two pings at one time |
| `KeepWarmCap.AbandonedCap` | src/hub/keep-warm.ts:393-402 | an enabled period, however long, has at most maxConsecutivePings pings of a session with no newer user prompt between them, if nothing is forgotten between two of them |
| `KeepWarmCap.LimitIffRemembered` | src/hub/keep-warm.ts:272-296 | for every state of every run inside such a period: a continuation that forgets nothing and in which the period exceeds the limit exists if and only if something was forgotten since its first ping |
| `KeepWarmCap.ForgottenWhileEnabled` | src/hub/keep-warm.ts:272-296 | a step forgets the last ping of an enabled session if and only if it is a disabling with `forget` and no host, of an id that is read from the key but is not the session's own; the session then stays enabled |
| `KeepWarmCap.PlainIsNoMistake` | src/hub/keep-warm.ts:173-181 | no such step exists for a session whose host has no separator in it |
| `KeepWarmCap.PlainCap` | src/hub/keep-warm.ts:393-402 | so under a key whose hosts have no separator the limit of an enabled period holds in every run, whatever is forgotten and when |
| `KeepWarmCap.AfterMistake` | src/hub/index.ts:163-166 | such a step is reachable for every host with a separator, session and configuration that pings at all: the past is enabled, pinged, forgotten, and the session is enabled |
| `KeepWarmCap.MistakeGoesOver` | src/hub/keep-warm.ts:178-181 | so those runs go on to exceed the limit within the period |
| `KeepWarm.PingsOnlyWhenReady` | src/hub/keep-warm.ts:331-422 | a ping only goes to an enabled session that is open, attached, not busy, not at a prompt, and idle long enough |
| `KeepWarmRules.PingedIff` | src/hub/keep-warm.ts:331-422 | in every run a timer that fires pings its session if and only if it is open, attached, idle for the interval, awaiting input or with background work, not at a question to the user, over the floor of its last remembered ping, below the limit of unattended pings, and the ping is delivered |
| `KeepWarmRules.CheckIs` | src/hub/keep-warm.ts:331-422 | what a timer that fires comes to: removal of a session that is gone or over the limit, else the next check after the rest of the interval or of the floor, after a recheck or after an interval, with the reason shown; nobody else changes |
| `KeepWarmRules.EnabledIff` | src/hub/keep-warm.ts:230-263 | in every run enabling succeeds if and only if it is not stopped, the session is open and not enabled yet; the first check is due when idle and floor are over |
| `KeepWarmRules.DisabledIs` | src/hub/keep-warm.ts:272-296 | in every run exactly which sessions a disabling removes, and which last pings it forgets |
| `KeepWarm.StopIsFinal` | src/hub/keep-warm.ts:312-317 | once stopped, nothing is enabled and no timer armed, whatever happens later |
| `KeepWarm.LawfulSpacing` | src/hub/keep-warm.ts:353-366 | the floor, for the past of one key |
| `KeepWarmCap.LawfulPeriod` | src/hub/keep-warm.ts:393-402 | the limit of a period, for the past of one key |
| `KeepWarm.KeepWarm.Enable` | src/hub/keep-warm.ts:230-263 | answer and new state; due when idle long enough and past the floor |
| `KeepWarm.KeepWarm.Disable` | src/hub/keep-warm.ts:272-296 | removes the item of the host or of all hosts, and forgets the floor when asked |
| `KeepWarm.KeepWarm.Stop` | src/hub/keep-warm.ts:312-317 | removes all items and refuses new ones |
| `KeepWarm.KeepWarm.OnTimer` | src/hub/keep-warm.ts:319-329 | a fired timer checks its own item |
| `KeepWarm.KeepWarm.Check` | src/hub/keep-warm.ts:331-422 | the decision of the check, whose meaning KeepWarmRules.CheckIs gives |
| `KeepWarm.KeepWarm.Rearm` | src/hub/keep-warm.ts:325-329 | one fresh timer for the item |
| `KeepWarm.KeepWarm.RemoveItem` | src/hub/keep-warm.ts:428-440 | item, timer and streak go together |
| `KeepWarm.KeepWarm.RemoveAll` | src/hub/keep-warm.ts:284-287 | the loop removes exactly the given items |
| `Scheduler.RunKeeps` | src/hub/scheduler.ts:100-228 | every run keeps items and timers matched and every past lawful |
| `Scheduler.PendingIffArmed` | src/hub/scheduler.ts:187-228 | an item is pending if and only if the timer of its next attempt is armed; no timer is armed twice |
| `Scheduler.AtMostOnce` | src/hub/scheduler.ts:187-220 | for any configuration and any late-firing timers: at most one success, nothing after a success or a cancellation, the k-th retry no earlier than k backoffs after fireAt, and at most ceil(retryDeadlineMs / retryBackoffMs) + 1 attempts unless the backoff is below 1 ms |
| `Scheduler.NoBackoffNoBound` | src/hub/scheduler.ts:208-216 | then, with a deadline in the future, there is no bound: n attempts at one time, for every n |
| `Scheduler.StatusTellsPast` | src/hub/scheduler.ts:187-220 | sent, failed and cancelled say what was last done; pending says all attempts failed |
| `Scheduler.TerminalAbsorbing` | src/hub/scheduler.ts:138-150 | a settled item stays as it is until it is dropped |
| `SchedulerRules.ScheduledIs` | src/hub/scheduler.ts:100-136 | in every run a delay of 1 ms to 24 h is accepted, and the first attempt due when it is over; any other changes nothing |
| `SchedulerRules.AttemptIs` | src/hub/scheduler.ts:187-220 | in every run an attempt is counted and noted; it settles the item if it succeeds, is repeated exactly one backoff later if it fails before the deadline, and fails the item after it; a settled item goes one retention time later |
| `SchedulerRules.CancelIs` | src/hub/scheduler.ts:138-150 | a pending item, and no other, is cancelled and kept for the retention time |
| `SchedulerRules.PrunedIs` | src/hub/scheduler.ts:222-228 | an item whose retention is over is gone |
| `SchedulerRules.StoppedIs` | src/hub/scheduler.ts:171-179 | a stop leaves no item and no timer |
| `Scheduler.Scheduler.Schedule` | src/hub/scheduler.ts:100-136 | refuses what is not a finite delay from 1 ms to 24 h once floored; otherwise the item and its timer |
| `Scheduler.Scheduler.Cancel` | src/hub/scheduler.ts:138-150 | cancels only what is pending |
| `Scheduler.Scheduler.OnTimer` | src/hub/scheduler.ts:181-228 | a fired timer attempts or prunes |
| `Scheduler.Scheduler.Attempt` | src/hub/scheduler.ts:187-220 | sent, tried again before the deadline, or failed |
| `Scheduler.Scheduler.SchedulePrune` | src/hub/scheduler.ts:222-228 | one retention timer at a time |
| `Scheduler.Scheduler.Stop` | src/hub/scheduler.ts:171-179 | disarms every timer of every item and forgets the items |
| `RateLimit.AtMostMaxPerWindow` | src/hub/rate-limit.ts:31-61 | at most `max` calls of a key are allowed in any closed window of windowMs, over any run with a monotone clock |
| `RateLimit.SpacedOut` | src/hub/rate-limit.ts:31-61 | an allowed call and the max-th one after it are more than windowMs apart |
| `RateLimit.NothingAllowed` | src/hub/rate-limit.ts:31-61 | without a quota nothing is ever allowed |
| `RateLimit.RetryIsExact` | src/hub/rate-limit.ts:67-73 | told to wait r > 0 at time t and with no call between, a call is refused up to and including t + r and allowed at every later time |
| `RateLimit.NoWaitExact` | src/hub/rate-limit.ts:67-73 | a wait of 0 means allowed, except at the one instant when the oldest counting call is exactly windowMs old |
| `RateLimit.NoWaitYetRefused` | src/hub/rate-limit.ts:67-73 | a concrete call at that instant |
| `RateLimit.RateLimiter.Allow` | src/hub/rate-limit.ts:31-61 | answers as the infinite log does; the sweep never shows |
| `RateLimit.RateLimiter.Sweep` | src/hub/rate-limit.ts:50-58 | dropping stale times and empty keys keeps the answers of the log |
| `RateLimit.RateLimiter.RetryAfterMs` | src/hub/rate-limit.ts:67-73 | the wait computed from what is remembered is that of the infinite log; without a quota it is as if the oldest call had been at time 0 |
| `RateLimit.StaleCount` | src/hub/rate-limit.ts:36-38 | the number of stale times at the front |
| `HubClientRuns.RunKeeps` | src/mirror-agent/hub-client.ts:64-263 | every run, with calls inside the close callback, keeps the fields and the timers matched |
| `HubClientRuns.NeverWedged` | src/mirror-agent/hub-client.ts:64-263 | after start and before stop a socket is held with exactly one of handshake deadline and watchdog armed, or a reconnect timer is armed, or both |
| `HubClientRuns.StepHolds` | src/mirror-agent/hub-client.ts:64-263 | the steps that make the client hold a socket while a reconnect is pending, and those that end it |
| `HubClientRuns.HoldsBothIff` | src/mirror-agent/hub-client.ts:64-263 | both hold at once if and only if the owner started the client with a reconnect pending, or last of all inside the close callback, and since then no socket was lost without that, no reconnect came, and no stop or failed start |
| `HubClientRuns.ReconnectRetires` | src/mirror-agent/hub-client.ts:93-99 | then the reconnect, when it comes, retires the held socket |
| `HubClientRuns.StartedTwice` | src/mirror-agent/hub-client.ts:64-67 | such a run: a second start after one that could not make a socket |
| `HubClientRuns.NothingAfterStop` | src/mirror-agent/hub-client.ts:69-76 | after a stop no socket is held, no timer armed, and every socket ever made was retired |
| `HubClientRuns.StopInsideOnClose` | src/mirror-agent/hub-client.ts:164-182 | a stop called inside the close callback leaves nothing armed |
| `HubClientRuns.KthDelay` | src/mirror-agent/hub-client.ts:253-263 | the k-th reconnect delay since a socket last opened is min(1000 * 2^k, 30000) |
| `HubClientTimes.ReconnectSince` | src/mirror-agent/hub-client.ts:253-263 | in every run a pending reconnect is due min(1000 * 2^n, 30000) ms after the step that arranged it, where n were arranged before it since a socket opened; it fires no earlier |
| `HubClientTimes.WatchdogSince` | src/mirror-agent/hub-client.ts:133-144 | in every run the watchdog is due 31 s after the held socket opened or was last heard of |
| `HubClientTimes.PingSince` | src/mirror-agent/hub-client.ts:234-245 | in every run the next ping is due 5 s after the held socket opened or after the ping before |
| `HubClientTimes.DeadlineSince` | src/mirror-agent/hub-client.ts:109-119 | in every run the handshake of the held socket is due its timeout after the step that made it |
| `HubClientTimes.EventAt` | src/mirror-agent/hub-client.ts:124-131 | every opening and every reconnect of the history happened in one step of the run, at its time |
| `HubClientRuns.RunDelays` | src/mirror-agent/hub-client.ts:253-263 | every run: the delays form a chain that doubles up to the limit and starts over when a socket opens |
| `ReconnectDelays.NextDelayIs` | src/mirror-agent/hub-client.ts:253-263 | the next delay is min(1000 * 2^k, 30000) after k reconnects since a socket opened |
| `HubClientRuns.NothingLeaks` | src/mirror-agent/hub-client.ts:93-205 | every socket ever made is held or was retired, and every armed timer is named by its field |
| `HubClient.HubClient.Start` | src/mirror-agent/hub-client.ts:64-67 | new state |
| `HubClient.HubClient.Stop` | src/mirror-agent/hub-client.ts:69-76 | new state |
| `HubClient.HubClient.OpenOnce` | src/mirror-agent/hub-client.ts:93-155 | retires the held socket first; a failed construction schedules a reconnect |
| `HubClient.HubClient.OnOpen` | src/mirror-agent/hub-client.ts:124-131 | the deadline gives way to watchdog and pings, the delay starts over |
| `HubClient.HubClient.OnTraffic` | src/mirror-agent/hub-client.ts:133-144 | a message or pong restarts the watchdog |
| `HubClient.HubClient.OnClose` | src/mirror-agent/hub-client.ts:146-148 | a close abandons the socket |
| `HubClient.HubClient.Abandon` | src/mirror-agent/hub-client.ts:164-182 | the socket goes, the owner is told, and unless it stopped the client a reconnect follows |
| `HubClient.HubClient.RetireCurrent` | src/mirror-agent/hub-client.ts:189-205 | the socket goes with its three timers |
| `HubClient.HubClient.ResetWatchdog` | src/mirror-agent/hub-client.ts:214-225 | one fresh watchdog |
| `HubClient.HubClient.ScheduleReconnect` | src/mirror-agent/hub-client.ts:253-263 | at most one reconnect timer; the delay doubles up to the limit |
| `HubClient.HubClient.OnTimer` | src/mirror-agent/hub-client.ts:112-119 | what each kind of timer does |
| `MirrorSessions.KeyTells` | src/hub/mirror.ts:992-994 | the host is read back from a key if and only if it has no separator in it; then the session id is too |
| `MirrorSessions.StepKeeps` | src/hub/mirror.ts:992-1568 | a step keeps the map, the index and the timers consistent if and only if it is no creation that finds a session of another host under its key, or takes the place of a closed session or of one with another id |
| `MirrorSessions.RunKeeps` | src/hub/mirror.ts:992-1568 | all states of a run are consistent if and only if each of its steps is like that |
| `MirrorSessions.PlainIsSteady` | src/hub/mirror.ts:1139-1141 | when no host has a separator in it, the only other step is a creation without a host, while several hosts hold the id, over a closed session without a host |
| `MirrorSessions.PlainRunKeeps` | src/hub/mirror.ts:1139-1141 | so a run whose hosts have no separator in them stays consistent if and only if it has no such step |
| `MirrorSessions.OpenSessionIsLost` | src/hub/mirror.ts:1511-1518 | a run with such a step: the retention timer of the closed session deletes the key of the new, open one |
| `MirrorSessions.LookupBySid` | src/hub/mirror.ts:1067-1111 | a lookup by session id finds the session if and only if one host holds it, reports a conflict if several do, naming exactly those that are not empty (up to a separator in them), each once if no holder has a separator in its host, and finds nothing if none does |
| `MirrorSessions.ClosedIffWaiting` | src/hub/mirror.ts:1460-1521 | with retention, a stored session is closed if and only if its one retention timer is armed; each key is that of its entry |
| `MirrorSessions.TimerDeletesOnlyClosed` | src/hub/mirror.ts:1511-1518 | a retention timer that fires deletes exactly the closed session it was armed for |
| `MirrorSessions.TranscriptsDistinct` | src/hub/mirror.ts:1298-1311 | no frame id is twice in a transcript, in any run |
| `MirrorSessions.TranscriptBound` | src/hub/mirror.ts:1298-1311 | a transcript is no longer than the ring and one frame for each close since the last recorded frame |
| `MirrorSessions.TranscriptsOutgrowRing` | src/hub/mirror.ts:1460-1521 | closing and creating again n times leaves n frames, for every n, whatever the ring size |
| `MirrorRules.MeansIff` | src/hub/mirror.ts:1019-1065 | a session is resolved if and only if it is the one under the key, or without a host the only one with the id |
| `MirrorRules.LookupByHost` | src/hub/mirror.ts:1067-1075 | a lookup with a host finds the session under the key, or nothing |
| `MirrorRules.RecordedIs` | src/hub/mirror.ts:1289-1311 | a new frame of an open session comes last, and of all the newest are kept, as many as the ring holds; any other frame changes nothing |
| `MirrorRules.NothingMeant` | src/hub/mirror.ts:1289-1576 | recording, closing and dropping change nothing where no session is meant, or none that is open |
| `MirrorRules.ClosedIs` | src/hub/mirror.ts:1460-1521 | closing an open session adds an end frame and arms the retention timer for the retention time, or drops it at once without one |
| `MirrorRules.DroppedIs` | src/hub/mirror.ts:1552-1576 | a dropped session is gone with its timer, and no other |
| `MirrorRules.ExpiredIs` | src/hub/mirror.ts:1511-1518 | when a retention timer fires, its session was closed and is gone, and no other |
| `MirrorRules.AnnouncedAgain` | src/hub/mirror.ts:1146-1211 | a session that is announced again is reopened with the identity announced, unless it is closed and the announcement is a newest-mtime guess of another known process |
| `MirrorRules.AnnouncedFirst` | src/hub/mirror.ts:1213-1275 | a first announcement adds an entry; exactly the open, frameless entries of the same host and process under other ids go, if no other host has the id |
| `MirrorSessions.SetKeepsIndex` | src/hub/mirror.ts:997-1006 | inserting an entry keeps the index exact if and only if it takes the place of none with another session id |
| `MirrorSessions.DeleteKeepsIndex` | src/hub/mirror.ts:1009-1017 | deleting an entry keeps the index exact and without empty sets |
| `MirrorSessions.CreatedKeeps` | src/hub/mirror.ts:1122-1275 | creating, reopening and sweeping zombies keep everything consistent, under the same exact condition |
| `MirrorSessions.DroppingKeeps` | src/hub/mirror.ts:1552-1576 | close-and-drop keeps everything consistent, retention or not |
| `MirrorSessions.MirrorRegistry.SetEntry` | src/hub/mirror.ts:997-1006 | both maps after an insertion |
| `MirrorSessions.MirrorRegistry.DeleteEntry` | src/hub/mirror.ts:1009-1017 | both maps after a deletion |
| `MirrorSessions.MirrorRegistry.GetSession` | src/hub/mirror.ts:1067-1111 | the lookup with its error cases |
| `MirrorSessions.MirrorRegistry.CloseSession` | src/hub/mirror.ts:1460-1521 | new state; closing twice changes nothing |
| `MirrorSessions.MirrorRegistry.CloseAndDrop` | src/hub/mirror.ts:1552-1576 | new state |
| `MirrorSessions.MirrorRegistry.RecordEvent` | src/hub/mirror.ts:1289-1315 | a duplicate is recognised anywhere in the transcript and not recorded; the ring is trimmed |
| `MirrorSessions.MirrorRegistry.OnRetentionTimer` | src/hub/mirror.ts:1511-1518 | new state |
| `MirrorSessions.MirrorRegistry.CreateSession` | src/hub/mirror.ts:1122-1275 | restored, refused (a newest-mtime guess of another process for a closed session) or created |
| `MirrorSessions.MirrorRegistry.Reopen` | src/hub/mirror.ts:1185-1196 | reopening cancels the retention timer and takes on the announced identity |
| `MirrorSessions.MirrorRegistry.SweepZombies` | src/hub/mirror.ts:1218-1231 | lists the zombies, then drops them one by one by session id |
| `Ledger.RunKeeps` | src/hub/mirror.ts:428-519 | in every run each ledger key is its entry's task id, or the monitor-call key of an entry without one |
| `Ledger.TerminalClears` | src/hub/mirror.ts:447-465 | a terminal notification removes exactly what is under its task id or has its tool-use id |
| `Ledger.LaunchIsKept` | src/hub/mirror.ts:489-507 | a launched task is in the ledger afterwards if and only if its id is new or has fewer than 64 keys behind it, once the call it adopts is gone; then it has its own times, or those of the call |
| `Ledger.WakeupIsLost` | src/hub/mirror.ts:502-507 | a wakeup scheduled again after n monitor calls is evicted by its own launch, for every n of at least 64 |
| `Ledger.MonitorCountedOnce` | src/hub/mirror.ts:468-500 | a persistent monitor is counted once, with the timeout its call declared, if and only if its id is new or has fewer than 64 keys behind it |
| `Ledger.SubAgentsAreIgnored` | src/hub/mirror.ts:210-241 | base state and ledger are what the session's own frames make of them |
| `Ledger.BusyIff` | src/hub/mirror.ts:210-241 | busy if and only if, since something made it busy, nothing ended the turn |
| `Ledger.BlockedIff` | src/hub/mirror.ts:526-532 | blocked on the user if and only if a permission prompt was followed by nothing but notifications |
| `Ledger.PruneTwice` | src/hub/mirror.ts:511-519 | pruning at two times is pruning at the later one |
| `Ledger.BackgroundUntilLatest` | src/hub/mirror.ts:577-588 | without new frames, through readings and listings in any order, the session is in the background exactly until one of them came at its latest expiry or later, so it never comes back |
| `LedgerRules.ShownIs` | src/hub/mirror.ts:577-588 | in every run: busy comes first, a session at a permission prompt is shown as awaiting input whatever goes on in the background, and else it is in the background if and only if some task has not expired |
| `LedgerRules.LaunchIs` | src/hub/mirror.ts:357-422 | exactly which frames launch background work: the task, its kind, and when it is given up |
| `LedgerRules.EntryAfter` | src/hub/mirror.ts:428-487 | without a launch: a task is in the ledger after a frame if and only if it was called by it, or was there and neither stopped, finished nor called again |
| `LedgerRules.EntryAfterLaunch` | src/hub/mirror.ts:489-508 | with a launch: the launched task, with the times its call declared, and all others but that call; of these exactly the last 64 |
| `LedgerRules.LedgerAfter` | src/hub/mirror.ts:1325-1378 | in every run what is so left and has not expired at the time of the frame is the ledger |
| `LedgerRules.ReadingIs` | src/hub/mirror.ts:577-588 | a listing drops what has expired, and a reading does unless the session is busy or blocked |
| `LedgerRules.IncludesIff` | src/hub/mirror.ts:440-442 | a text includes another if and only if that stands somewhere in it |
| `Ledger.FoldedGrowsIff` | src/hub/mirror.ts:468-507 | before pruning, a frame takes the ledger over 64 if and only if it is a monitor call that is not in it yet while it holds 64 |
| `Ledger.StepOverIff` | src/hub/mirror.ts:428-519 | a step takes it over 64 if and only if it is such a call, at a time at which nothing in the ledger has expired |
| `Ledger.WithinLimitIff` | src/hub/mirror.ts:502-507 | all states of a run are within 64 if and only if none of its steps is such a call |
| `Ledger.SizeBound` | src/hub/mirror.ts:502-507 | in any case the limit is exceeded at most by the monitors called since the last launch |
| `Ledger.CallsPileUp` | src/hub/mirror.ts:468-487 | monitor calls are added to whatever the ledger holds, and nothing makes room for them |
| `Ledger.MonitorCallsAreNotBounded` | src/hub/mirror.ts:468-487 | n monitor calls alone leave n entries, for every n |
| `Ledger.Session.RecordEvent` | src/hub/mirror.ts:1325-1378 | the three parts of the state after a frame, and the activity shown |
| `Ledger.Session.UpdateBackgroundLedger` | src/hub/mirror.ts:428-508 | the ledger after a frame |
| `Ledger.Session.Launch` | src/hub/mirror.ts:489-507 | adopts the timeout of the call, sets, and evicts the oldest past 64 |
| `Ledger.Session.DeleteWhere` | src/hub/mirror.ts:440-442 | the loops that delete during iteration delete exactly what meets the criterion |
| `Ledger.Session.PrunePendingBackground` | src/hub/mirror.ts:511-519 | the tasks still outstanding |
| `Ledger.Session.EffectiveActivityState` | src/hub/mirror.ts:577-588 | busy, blocked, background or awaiting input |
| `LogRing.LongestFitUnique` | src/hub/log-ring.ts:126-157 | what was pushed determines what is kept |
| `LogRing.ChunkingExact` | src/hub/log-ring.ts:98-113 | splitting one write into two goes unnoticed if and only if nothing overflowed the cap after the first half, or the second half is empty or starts by ending the line |
| `LogRing.EmitWithinCap` | src/hub/log-ring.ts:98-113 | splitting goes unnoticed while nothing overflows the cap |
| `LogRing.EmitPastCap` | src/hub/log-ring.ts:98-113 | past the cap, exactly which second halves go unnoticed |
| `LogRing.ChunkingIrrelevant` | src/hub/log-ring.ts:98-113 | while no remainder outgrows the cap, a stream may be chunked in any way |
| `LogRing.LineIsKept` | src/hub/log-ring.ts:126-134 | a line ended by a newline, with or without a carriage return, is kept without its end and cut to 8192 characters; an empty one is not kept |
| `LogRing.BytesIs` | src/hub/log-ring.ts:137-145 | the size that is bounded is the sum of the lengths of the lines |
| `LogRing.FilterIs` | src/hub/log-ring.ts:160-172 | a query keeps the order and exactly the lines that are newer than asked and of the stream asked for |
| `LogRing.Ring.Write` | src/hub/log-ring.ts:98-113 | pushes exactly the complete lines of remainder and chunk, and keeps the rest; the ring is the longest suffix of all pushed lines within both budgets, with exact byte and drop counts |
| `LogRing.Ring.Flush` | src/hub/log-ring.ts:116-124 | pushes both remainders |
| `LogRing.Ring.FlushStream` | src/hub/log-ring.ts:116-124 | pushes one remainder |
| `LogRing.Ring.PushLine` | src/hub/log-ring.ts:126-157 | strips, caps, stores; evicts until the ring is the longest suffix that fits |
| `LogRing.Ring.Overwrite` | src/hub/log-ring.ts:136-144 | the slot arithmetic of storing one line |
| `LogRing.Ring.DropOldest` | src/hub/log-ring.ts:147-156 | the slot arithmetic of dropping the oldest |
| `LogRing.Ring.Query` | src/hub/log-ring.ts:160-176 | filter by time and stream, then the last `limit` |
| `JsonlTail.AlwaysDelivers` | src/mirror-agent/jsonl-tail.ts:61-160 | every run, whatever the file does: since the last pass that started over (or the beginning), what was handed over is exactly the non-blank complete lines of the bytes taken in, each once and in order, after the first newline when reading began in the middle |
| `JsonlTail.RestartIsFresh` | src/mirror-agent/jsonl-tail.ts:69-75 | from a pass that finds the file smaller than what was read, a tail goes on just like a new one |
| `JsonlTail.ChunkIsBounded` | src/mirror-agent/jsonl-tail.ts:76-98 | no pass takes in more than 4 MiB, and the first one no more than 512 KiB |
| `JsonlTail.RunDelivers` | src/mirror-agent/jsonl-tail.ts:61-160 | while the file is only appended to, from the beginning or from a pass that started over with it, and for any chunk caps, short reads, read errors and sizes reported too large, what was handed over since is exactly the non-blank complete lines of the file between the origin and the offset |
| `JsonlTail.ReplacedIff` | src/mirror-agent/jsonl-tail.ts:69-75 | a new file of up to 524288 bytes is taken in whole by the next pass if and only if it is smaller than what was read, or nothing was read; one of just the size read is not handed over at all |
| `JsonlTail.CaughtUp` | src/mirror-agent/jsonl-tail.ts:61-160 | caught up with an append-only file that was small when first seen, after a restart or not, nothing is missing or double |
| `JsonlTail.DrainPendingIff` | src/mirror-agent/jsonl-tail.ts:143-159 | in every run a re-read is pending if and only if, since some pass advanced and left bytes, the drain timer has not fired |
| `JsonlTail.ChainIsBounded` | src/mirror-agent/jsonl-tail.ts:143-159 | a chain of drains, each of which found a re-read pending, is no longer than the bytes left |
| `JsonlTail.DrainsCatchUp` | src/mirror-agent/jsonl-tail.ts:143-159 | on a file that does not change, with reads of at least one byte, a chain of drains goes on exactly until it has caught up, within as many drains as there are bytes left |
| `JsonlTail.DrainsDeliver` | src/mirror-agent/jsonl-tail.ts:61-160 | so the drains alone deliver the rest of such a file |
| `JsonlTail.Tail.OnDrain` | src/mirror-agent/jsonl-tail.ts:153-156 | the drain timer clears its flag and reads once more |
| `JsonlTail.Tail.ReadChunk` | src/mirror-agent/jsonl-tail.ts:99-105 | takes in what the read returned, of a bounded chunk |
| `JsonlTail.SkippedPrefix` | src/mirror-agent/jsonl-tail.ts:115-124 | dropping an unfinished first line early is the same as dropping it once it ends |
| `JsonlTail.NonBlankIs` | src/mirror-agent/jsonl-tail.ts:126-141 | of the lines exactly those with a character other than white space are handed over, in order |
| `JsonlTail.WhiteIs` | src/mirror-agent/jsonl-tail.ts:131 | what counts as white space, by code points |
| `JsonlTail.Tail.ReadMore` | src/mirror-agent/jsonl-tail.ts:61-160 | one pass: new state and the lines handed over |
| `JsonlTail.Tail.Reposition` | src/mirror-agent/jsonl-tail.ts:69-82 | start over, or move close to the end of a large file |
| `JsonlTail.Tail.CutBuffer` | src/mirror-agent/jsonl-tail.ts:115-141 | drop the partial line, hand over the complete ones |
| `JsonlTail.Tail.HandOver` | src/mirror-agent/jsonl-tail.ts:126-141 | the loop hands over the non-blank lines in order |
| `JsonlTail.HasNonWhite` | src/mirror-agent/jsonl-tail.ts:131 | the blank-line test |
| `JsonlHistory.ReadHistoryBefore` | src/mirror-agent/jsonl-history.ts:38-124 | whatever the chunk sizes, the answer is the last `limit` of the records before the first one stamped at or after the cutoff, with `exhausted` exact; a `null` record met under a cutoff throws |
| `JsonlHistory.AnswerIsOlder` | src/mirror-agent/jsonl-history.ts:54-123 | nothing returned is stamped at or after the cutoff; `exhausted` if and only if fewer than `limit` such records exist |
| `JsonlHistory.BeforeIs` | src/mirror-agent/jsonl-history.ts:94-106 | what comes before the cutoff is everything up to the first record stamped at or after it, or the first `null` |
| `JsonlHistory.ThrowsIff` | src/mirror-agent/jsonl-history.ts:94-98 | asked with a cutoff, it throws if and only if a `null` comes before any record at or after the cutoff |
| `JsonlHistory.ParsedIs` | src/mirror-agent/jsonl-history.ts:84-93 | empty lines and lines that are no JSON are passed over, all others give their value in order |
| `JsonlHistory.NoCutoffKeepsAll` | src/mirror-agent/jsonl-history.ts:54-123 | without a cutoff the end of the file is returned |
| `JsonlHistory.BeforeOfPrefix` | src/mirror-agent/jsonl-history.ts:54-123 | reading on only appends, so a stop once found stays |
| `JsonlHistory.Reader.ReadThrough` | src/mirror-agent/jsonl-history.ts:78-111 | the chunk loop |
| `JsonlHistory.Reader.Feed` | src/mirror-agent/jsonl-history.ts:79-110 | one chunk |
| `JsonlHistory.Reader.Consume` | src/mirror-agent/jsonl-history.ts:84-109 | the line loop with its early stop |
| `JsonlHistory.Ring.Push` | src/mirror-agent/jsonl-history.ts:59-63 | the ring holds the last `limit` of all pushed |
| `JsonlHistory.Ring.Drain` | src/mirror-agent/jsonl-history.ts:65-72 | the records, oldest first |
| `ShellWords.QuoteIsRead` | src/mirror-agent/host-channel.ts:465-467 | in any place of a line the quoted form adds exactly its characters to the word at hand |
| `ShellWords.QuoteRoundTrip` | src/mirror-agent/host-channel.ts:465-467 | for every string the shell reads its quoted form as that one word |
| `ShellWords.QuoteInjective` | src/mirror-agent/host-channel.ts:465-467 | different strings have different quoted forms |
| `ShellWords.EnvPrefixIsRead` | src/mirror-agent/host-channel.ts:476-483 | the prefix is one complete command before whatever follows: it exports the directory, or unsets the variable |
| `ShellWords.LaunchIsRead` | src/mirror-agent/host-channel.ts:642-671 | the launch part is read as the program and its flags |
| `ShellWords.RelaunchIsRead` | src/mirror-agent/host-channel.ts:663-671 | the whole relaunch line sets the account, enters the directory and starts the program, whatever the directories are called |
| `SessionNames.DecimalRoundTrip` | src/mirror-agent/host-channel.ts:543-551 | numerals are read back |
| `SessionNames.CandidatesDiffer` | src/mirror-agent/host-channel.ts:543-551 | no two names of the series are equal |
| `SessionNames.Pigeonhole` | src/mirror-agent/host-channel.ts:543-551 | if the first k - 1 names are taken, at least k - 1 names are taken |
| `SessionNames.FreeSessionName` | src/mirror-agent/host-channel.ts:543-551 | tries at most one name more than are taken, and ends with the first unused name of base, base-2, base-3, ... |
| `SessionNames.FirstFreeUnique` | src/mirror-agent/host-channel.ts:543-551 | there is only one first unused name |
| `SessionNames.DistinctIsSet` | src/mirror-agent/host-channel.ts:861-867 | deduplication keeps each id once |
| `SessionNames.Dedupe` | src/mirror-agent/host-channel.ts:861-867 | the loop that deduplicates |
| `SessionNames.Restore` | src/mirror-agent/host-channel.ts:910-979 | the sessions of a batch that came up have pairwise distinct names, none of them in use at the start, although failed spawns give their names back |
| `SessionNames.RestoreOne` | src/mirror-agent/host-channel.ts:910-979 | one turn: reserve, spawn, give back on failure |
| `Text.LinesRoundTrip` | src/mirror-agent/jsonl-tail.ts:126-141 | the lines cut from a text, put together again, are the text |
| `Text.LinesConcat` | src/mirror-agent/jsonl-tail.ts:126-141 | cutting a stream piece by piece gives the same lines as cutting it whole |

## Left out

- Clock readings: one write to the log ring uses one time for all its lines; a schedule, an enable and a close use one
  time each. Times are integers, and the ISO strings of `sent_at` and `read_at` are compared as integers.
- Numbers that are not integers as options or tool inputs (intervals, delays in seconds).
- UTF-8 decoding at chunk edges and UTF-16 surrogates at cut points: text is a sequence of characters.
- Callbacks that call back into the object that runs them, other than start and stop inside `onClose`: stopping a tail
  inside `onRecord`, cancelling a schedule inside `fireInject`, closing hooks that touch the mirror store.
- JSON parsing, regular expressions and redaction: frames arrive with the fields that are looked at, records with their
  timestamp, task notifications with their three fields.
- Dashboards, watchers, event log, statistics and broadcasts, and the routes and RPCs around the stores.
- The order of the map of teams; the order of the members of a team is kept.
- `connectedAt`, `lastPongAt` and the liveness tick that closes silent sockets: to the hub it is a close.
- The batch limits and the rescan of a restore, trust prompts, and everything tmux does.
- Session owners, labels and watchers in the mirror store; the store on disk; the sweeps, which are runs of closing and
  dropping with a host.
- Complete history of who was online together: it is bounded by eight intervals for each name and by the capacity for
  seen names, and the results say exactly that.
- Registry.Registry.OnTimeout: the timeout callback runs before the entry is removed; the model takes the entry out first, since neither step looks at what the other changes.
- Sockets that send anything before they open; the WebSocket library does not do that.
- Fresh ids made by the hub are numbers above all earlier ones, where the program draws random UUIDs.
- HubClient.HubClient.Abandon: terminating and gracefully closing a socket are not told apart.
