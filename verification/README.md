# Leader change in replication-manager, modelled and proved

replication-manager watches MySQL and MariaDB replication and moves the leader when the master
fails or an operator asks for it. This project models that engine in Dafny and proves what
every election, every leader change and every sequence of them keeps.

- `Coordinates.dfy` packs a binlog file suffix and offset into one 64-bit number.
- `DelayStats.dfy` keeps hourly replication-delay buckets and an incrementally maintained total.
- `Snapshot.dfy`, `Sorting.dfy`, `FailoverElection.dfy`, `SwitchoverElection.dfy` choose the server to promote.
- `Membership.dfy`, `FailoverGate.dfy`, `LeaderChange.dfy` carry a leader change through its phases and follow whole
  sequences of observations, failure checks, switchovers, operators' failovers and counter resets.
- `Ring.dfy` builds a multi-master ring, notices when it is broken and closes it around lost servers.
- `Arbitration.dfy` lets any number of isolated monitors compete for the arbitrator's favour.
- `Rolling.dfy` restarts a cluster one server at a time.
- `Grants.dfy` layers the access lists of API users.
- `SenderPorts.dfy` hands out the ports on which files are received, `Placement.dfy` spreads servers over agents.

`dafny verify dfyconfig.toml` checks everything.

## How the outside world appears

SQL statements, HTTP calls and service commands are parameters that say whether each one succeeds; clocks are
parameters too. `freeze` makes a server reject writes until `SetReadWrite`. Monitoring information (replication status,
ignore and preference lists) is one snapshot that stays fixed during a call and may change arbitrarily, addresses
excepted, from one observation to the next. A server's own `read_only` variable and the monitor's copy of it are
separate, because `SetReadOnly` and `SetReadWrite` consult the copy. Each observation, failure check, switchover and
arbitrator request is one step; a turn of the monitor is an observation followed by a failure check. The steps of
topology discovery after the follower list is rebuilt may settle on any server as the master. Delay averages are reals;
a division by zero leaves an infinity or no number (NaN), as in floating point.

## What the code does that its promises do not say

- Delay totals: a rotation subtracts the oldest bucket even when that bucket stays, so a total is exact only if the first
  bucket closed empty or the window has one bucket (`ExactIffFirstBucketEmpty`). A window of two buckets or more whose
  first bucket took two updates can always go on to a division by zero, after which the average is not finite until a
  reset (`FiniteForeverIff`, `FourSamplesDivideByZero`, `NotFiniteStays`).
- An average that is no number makes the election's comparison no order exactly when it is tied with two servers that
  are not tied with each other; infinities are compared like numbers (`SteadierOrderIff`).
- Errors counted in the total never leave it through delay updates (`DelayUpdatesKeepErrors`, `DroppedErrorsStay`).
- Offsets of thirteen digits are ranked wrongly, and twelve is the longest width that never is (`OffsetWidthIff`); a binlog
  name with two dots usually loses its position (`TwoDotsLoseThePosition`).
- The failover limit is tested for equality: an operator's failover completed at the limit, and nothing else, takes the
  counter past it, and no limit is left above it (`BoundedIff`, `HistoryBounded`, `NoLimitAbove`).
- A ring leader that is lost keeps its channel on record, so the recorded ring still closes. It is found only when the
  first follower of the list replicates from it; otherwise its loss goes unnoticed. Any other loss is noticed, but the
  ring is closed around the first failed server of the list, so a loss listed after an earlier one is not repaired. And
  a lost leader's channel can make it be mistaken for the child of its source (`RepairIff`, `RingSurvivesIff`,
  `BootstrapLeaderLost`, `LostInListOrder`, `LostLeaderShadowsTheChild`).
- A heartbeat of the elected monitor replaces its own elected row, so that another monitor can win within the same split
  brain. `Ends` names the events that allow it; without them one monitor at most ever acts (`StepRound`,
  `OneActorWhileQuiet`, `AnyoneWinsAfterEnd`).
- A follower that is down during a rolling restart has its maintenance flag flipped (`RollingRestart`).
- The third election tier, "also ignored", is never reached (`IgnoredTierIsEmpty`).
- A port handed to a receiver that cannot bind it leaves the pool, unless the system later chooses it for a request of
  port "0" (`PortMissingIff`, `FailedBindLosesThePort`). The error for an empty agent list cannot occur, since splitting
  always leaves a name (`GetDatabaseAgent`).

## Model

| member | source | states |
|---|---|---|
| Coordinates.ReadCoordinate | cluster/cluster_fail.go:901-912 | no position without a dot in the file name, else the packed number of the second name part and the padded offset, with Go's parsing of bad and too large numbers |
| Coordinates.PadOffset | cluster/cluster_fail.go:904-906 | the padding loop yields the zero-padded offset |
| Coordinates.ParseDecimal | cluster/cluster_fail.go:909 | the unsigned parse with its error dropped: 0 for a non-digit, the largest uint64 on overflow |
| Coordinates.PackedValue | cluster/cluster_fail.go:904-909 | for every decimal suffix and offset the packed number is suffix * 10^max(12, digits) + offset, capped at 2^64-1 |
| Coordinates.PackedOrder | cluster/cluster_fail.go:756-770 | with offsets of at most 12 digits packing never reverses two coordinates, and keeps them apart exactly while the earlier one is below the cap |
| Coordinates.PackedIsLexicographic | cluster/cluster_fail.go:897-912 | up to the cap, numeric order is the lexicographic order of (file, offset) |
| Coordinates.OffsetWidthIff | cluster/cluster_fail.go:904-909 | among offsets of at most w digits every two coordinates that fit keep their order if and only if w is at most 12 |
| Coordinates.LongOffsetReversesOrder | cluster/cluster_fail.go:904-908 | every 13-digit offset in file 1 ranks after the start of file 2 |
| Coordinates.TwoDotsLoseThePosition | cluster/cluster_fail.go:908-909 | the position of a name with two or more dots is 0 if and only if its second part has a character that is no digit before its digits exceed the cap, or second part and offset are both 0 |
| Coordinates.ParseScans | cluster/cluster_fail.go:909 | what the parse makes of any string, by where its first non-digit stands and whether the digits before it fit |
| DelayStats.ServerDelayStat.ResetDelayStat | cluster/cluster_stat.go:44-54 | one empty bucket, empty total |
| DelayStats.ServerDelayStat.UpdateCurrentDelayStat | cluster/cluster_stat.go:56-63 | the current bucket takes in one sample |
| DelayStats.ServerDelayStat.UpdateDelayWithRotate | cluster/cluster_stat.go:66-88 | the whole new state after a sample in a new hour |
| DelayStats.ServerDelayStat.UpdateDelayWithoutRotate | cluster/cluster_stat.go:91-102 | the whole new state after a sample in the same hour |
| DelayStats.ServerDelayStat.UpdateDelayStat | cluster/cluster_stat.go:104-112 | a delay update is the delay step of the specification |
| DelayStats.ServerDelayStat.UpdateSlaveErrorStat | cluster/cluster_stat.go:118-152 | an error update is the error step of the specification |
| DelayStats.WindowClosedForm | cluster/cluster_stat.go:49-152 | after any mix of updates and hour changes from a reset: 1 to limit buckets, the last one current, and the total counter equals the bucket sum minus (rotations made while not full) times the first bucket's closing counter |
| DelayStats.WarmRotationsAreBuckets | cluster/cluster_stat.go:69-76 | the rotations made while not full are the buckets beyond the first |
| DelayStats.DeficitIsConstant | cluster/cluster_stat.go:66-142 | once the window is full the gap between buckets and total never changes |
| DelayStats.ExactIffFirstBucketEmpty | cluster/cluster_stat.go:67-80 | a full window's total is the bucket sum if and only if the first bucket closed empty or the limit is 1 |
| DelayStats.FiniteForeverIff | cluster/cluster_stat.go:56-142 | the average stays finite however the run goes on if and only if the window is one bucket or the first bucket has closed with at most one update |
| DelayStats.TotalPositive | cluster/cluster_stat.go:66-142 | in those cases every update leaves a total of at least one sample |
| DelayStats.DividesByZero | cluster/cluster_stat.go:79-96 | with two buckets or more, every run whose first bucket took two updates has a continuation that divides by zero |
| DelayStats.FourSamplesDivideByZero | cluster/cluster_stat.go:79 | for every window of two buckets or more, four samples after which the total was divided by zero: no number if the two pairs have equal sums, else an infinity |
| DelayStats.NotFiniteStays | cluster/cluster_stat.go:79-96 | from then on no update makes the average finite |
| DelayStats.InfiniteThenNaN | cluster/cluster_stat.go:79-96 | the infinity left by a division by zero becomes no number with the next sample |
| DelayStats.NaNStays | cluster/cluster_stat.go:79-96 | no update turns no number into anything else |
| DelayStats.CountsWithDrift | cluster/cluster_stat.go:66-142 | after any mix of updates from a reset the total errors and delays are the bucket sums plus what each rotation left in or took out by handling only one of the two counts |
| DelayStats.DroppedErrorsStay | cluster/cluster_stat.go:66-102 | on a full window whose errors the total counts exactly, after any delay updates with r hour changes, the total errors are those of the buckets plus those of the first r buckets there were |
| DelayStats.DelayUpdatesKeepErrors | cluster/cluster_stat.go:66-102 | no sequence of delay updates changes the total error count |
| DelayStats.ErrorsKeepAverage | cluster/cluster_stat.go:118-142 | no sequence of error updates changes the total average or delay count |
| DelayStats.SameHourErrors | cluster/cluster_stat.go:135-142 | errors in the same hour keep the current average too and raise errors and counters by one each |
| DelayStats.NewHourError | cluster/cluster_stat.go:118-134 | an error in a new hour starts a bucket with one error and average 0 |
| DelayStats.ErrorsWeighAsSamples | cluster/cluster_stat.go:91-142 | after m errors on n samples of average a, a sample s leaves (a (n + m) + s) / (n + m + 1) |
| DelayStats.RotatedIsOldest | cluster/cluster_stat.go:67-120 | the bucket set aside is the oldest before the last hour change |
| DelayStats.RunIsRecomputed | cluster/cluster_stat.go:56-102 | on a full window, or one growing behind an empty first bucket, every sequence of delay updates leaves exactly the state recomputed from the raw samples: averages, counts, buckets |
| DelayStats.ResetIsRecomputed | cluster/cluster_stat.go:44-102 | the same from a reset whose first update falls in a new hour, or with one bucket |
| DelayStats.RotateTotal | cluster/cluster_stat.go:79-86 | taking the oldest bucket's samples out and one in, on the summary and on the samples, agree |
| Snapshot.AddSeqNos | cluster/cluster_fail.go:925-927 | the loop adds the sequence numbers in unsigned 64-bit arithmetic |
| Snapshot.WrapSumIsModulo | cluster/cluster_fail.go:925-927 | that sum is the true sum modulo 2^64 |
| Snapshot.RankedByReceived | cluster/cluster_fail.go:917-924 | with a failed master and one entry of its domain a server's sequence is the one it has received, modulo 2^64 |
| Snapshot.RankedByExecuted | cluster/cluster_fail.go:917-924 | while the master is alive it is the one it has executed |
| Snapshot.PositionRead | cluster/cluster_fail.go:896-912 | the position of a replicating server is the packed coordinate it reads in its master's log |
| Snapshot.PlaceholderRank | cluster/cluster_fail.go:896-916 | without a replication status it counts as at file 1, offset 1, sequence 1 |
| Snapshot.ElectableIff | cluster/cluster_fail.go:1056-1138 | which servers may be promoted after a loss, on the servers' and the master's own fields, in both directions |
| Snapshot.StoppedIoIsNoMatter | cluster/cluster_fail.go:1067 | with the master lost a stopped IO thread never disqualifies |
| Snapshot.ElectableForSwitchoverIff | cluster/cluster_chk.go:61-131 | which servers pass the tests of a switchover, in both directions |
| Sorting.SortSlice | cluster/cluster_fail.go:945-963 | the records are permuted, and in order whenever the comparison is a weak order on them |
| FailoverElection.SteadierOrderIff | cluster/cluster_fail.go:953-962 | the delay comparison is a strict weak order on a set of statistics if and only if no average that is no number is tied in errors and delays with two that are not tied with each other |
| FailoverElection.SteadierIsStrictWeakOrder | cluster/cluster_fail.go:953-962 | hence on every set of statistics whose averages are numbers or infinite |
| FailoverElection.NaNBreaksTheOrder | cluster/cluster_fail.go:959-961 | three statistics on which it is no order |
| FailoverElection.TrackServer | cluster/cluster_fail.go:839-928 | the record of one server after all skip conditions, or its election in a wsrep cluster |
| FailoverElection.CollectTracks | cluster/cluster_fail.go:838-938 | one record per server and the true maxima of sequence and position |
| FailoverElection.ScanTiers | cluster/cluster_fail.go:973-994 | the first record of the first non-empty tier |
| FailoverElection.IgnoredTierIsEmpty | cluster/cluster_fail.go:985-994 | no server record is ever in the ignored tier, and the second tier holds exactly the electable servers at the maximum |
| FailoverElection.ElectFailoverCandidate | cluster/cluster_fail.go:808-1054 | outside wsrep: an electable server at the maximum progress of all examined ones, preferred if any such is, and, wherever the delay comparison is an order among servers of equal progress, minimal in (errors, delays, average, -samples) in its tier; -1 exactly when there is none. In wsrep: the first other node in the wsrep state |
| FailoverElection.NeverBackwards | cluster/cluster_fail.go:839-1053 | no examined server, electable or not, is ahead of the elected one, by sequence, or by position when all sequences are 0; -1 if and only if no most advanced server is electable |
| FailoverElection.NobodyReceivedMore | cluster/cluster_fail.go:839-1053 | with a failed master no replicating server with a binlog, electable or not, that is no relay, not full, no master and not waiting for a first one has received more of the master's domain than the elected |
| FailoverElection.PlaceholderCompetes | cluster/cluster_fail.go:886-916 | where failover may be unsafe, servers without a replication status compete too |
| FailoverElection.PreferredWins | cluster/cluster_fail.go:973-979 | if some candidate is preferred the elected one is |
| FailoverElection.WinnerIsSteadiest | cluster/cluster_fail.go:944-962 | with the delay check on and finite averages no candidate of the tier has fewer errors, or as many and fewer delays, or then a smaller average, or then more samples |
| FailoverElection.InfinitiesCompare | cluster/cluster_fail.go:959-961 | a finite average is better than a positive infinity and worse than a negative one |
| FailoverElection.WsrepElected | cluster/cluster_fail.go:868-878 | in a wsrep cluster: in the wsrep state, not the present virtual master, and no sound node of that kind before it |
| FailoverElection.ElectedIsSound | cluster/cluster_fail.go:119-122 | the elected server is not ignored, child-cluster, relay, full, in maintenance or without binlog, and the check after the election cannot cancel; with the replication checks on, its SQL thread has not stopped, its delay is within the limit and its semi-sync state is as asked |
| SwitchoverElection.Examine | cluster/cluster_fail.go:696-785 | the verdict on one server: skipped, preferred, or weighed |
| SwitchoverElection.ElectSwitchoverCandidate | cluster/cluster_fail.go:687-805 | the first preferred server passing all filters, else the first with the highest positive sequence, else the first with the highest positive position, else -1 |
| SwitchoverElection.ElectedPasses | cluster/cluster_chk.go:61-131 | the elected server is electable, not behind the master's release unless allowed, has readable filters, the same filters and GTID mode where they are checked, no errant transactions, and is no relay or MaxScale |
| SwitchoverElection.PreferredFirst | cluster/cluster_fail.go:738-745 | a server listed as preferred by address or name that passes the tests is elected, or one listed before it that also is |
| SwitchoverElection.NobodyExecutedMore | cluster/cluster_fail.go:746-805 | without preferred servers nobody that passes the tests has executed more of the master's domain than the elected |
| Membership.RunConserves | cluster/cluster_fail.go:131-136 | over any legal sequence of changes, members now plus masters given up by failovers are the members before |
| Membership.RunKeepsDisjoint | cluster/cluster_fail.go:373-378 | the master is never among its followers and nobody is listed twice |
| Membership.SwitchoversLoseNobody | cluster/cluster_fail.go:373-378 | without failovers the membership is preserved exactly |
| Membership.SwapRemoveMultiset | cluster/srv.go:1239-1250 | the swap removal takes out exactly one occurrence |
| FailoverGate.CounterBounded | cluster/cluster_chk.go:166-177 | over all sequences of ticks, switchovers, resets and observations the counter stays at or below a positive limit |
| FailoverGate.BoundedIff | cluster/cluster_chk.go:166-177 | over all sequences of events, manual failovers included, the counter stays at or below the limit all along if and only if no manual failover completes while it stands at the limit |
| FailoverGate.TicksCount | cluster/cluster_chk.go:166-191 | with no limit, or up to it, n completing ticks spaced by FailTime add n |
| FailoverGate.ResetForgets | cluster/cluster.go:1425-1432 | after a reset the next permitted tick counts as the first |
| FailoverGate.NoLimitAbove | cluster/cluster_chk.go:172-187 | above the limit every completing tick that respects FailTime adds one, without end |
| FailoverGate.ManualLiftsTheLimit | cluster/cluster_fail.go:393-396 | a manual failover at the limit goes past it |
| FailoverGate.FailoversSpaced | cluster/cluster_chk.go:179-191 | with a monotone clock and no reset an automatic failover starts at least FailTime after any earlier failover completed |
| LeaderChange.ServerMonitor.Freeze | cluster/srv.go:1090-1114 | writes are rejected if the statement succeeds |
| LeaderChange.ServerMonitor.SetReadOnly | cluster/srv_set.go:132-148 | closes the server unless the monitor's copy says it is closed |
| LeaderChange.ServerMonitor.SetReadWrite | cluster/srv_set.go:162-187 | opens the server if the copy says it is closed and arbitration has not failed |
| LeaderChange.Cluster.IndexOf | cluster/cluster_fail.go:123-130 | the first server with the URL, 0 when there is none |
| LeaderChange.Cluster.Delete | cluster/srv.go:1239-1250 | the first follower with the URL is swap-removed, nothing else |
| LeaderChange.Cluster.SetMaster | cluster/srv_set.go:89-100 | the server's state is master and no server waits for a first master |
| LeaderChange.Cluster.Promote | cluster/cluster_fail.go:123-136 | the elected follower is the master, the old one is remembered, the follower list loses exactly it |
| LeaderChange.Cluster.HandOver | cluster/cluster_fail.go:139-261 | who accepts writes after freezing the old and opening the new master |
| LeaderChange.Cluster.Demote | cluster/cluster_fail.go:272-379 | the old master is closed and appended to the followers |
| LeaderChange.Cluster.SwitchSlavesToMaster | cluster/cluster_fail.go:411-567 | the final read-only variable of every follower, and a bound on the writers after each step |
| LeaderChange.Cluster.Exchange | cluster/cluster_fail.go:123-379 | a switchover up to the demotion is one step of the membership, and after every statement nobody but the new master accepts writes |
| LeaderChange.Cluster.FinishSwitchover | cluster/cluster_fail.go:380-392 | re-pointing the followers adds no writer except those left open by configuration |
| LeaderChange.Cluster.CompleteFailover | cluster/cluster_fail.go:123-396 | a failover is one step of the membership; the new master has the master's state, no failures counted and, if the statement went through, accepts writes; with ReadOnly on its followers do not |
| LeaderChange.Cluster.WhoIsOpened | cluster/cluster_fail.go:555-565 | with ReadOnly on phase 5 opens nobody unless read-only-ignored, with ReadOnly off every ordinary follower |
| LeaderChange.Cluster.MasterFailover | cluster/cluster_fail.go:28-409 | a refused call changes nothing and, if it could start, means nobody was electable; a switchover without a connection, with long writes or an unfinished flush is refused; a completed call is one step of the membership with the elected server; states, counter and time stamp; with ReadOnly on and nobody read-only-ignored only the new master accepts writes after every statement of a switchover and at its end; with ReadOnly off its ordinary followers do too |
| LeaderChange.Cluster.SingleWriterIff | cluster/cluster_fail.go:543-565 | exactly the new master accepts writes at the end if and only if arbitration is not lost and, unless MaxScale or group replication takes care of them, every follower but the old master in no wsrep or master state is read-only by configuration |
| LeaderChange.Cluster.MayFailOver | cluster/cluster_chk.go:37-52 | the failure check goes on to a failover if and only if everything permits it and both brakes are off |
| LeaderChange.Cluster.CheckFailed | cluster/cluster_chk.go:27-59 | one failure check is one tick of the gate; with a failed master seen failed often enough, no sign of life, arbitration won, FailTime elapsed, no limit or a counter below it and somebody to elect it fails over; without any one of these it touches nothing |
| LeaderChange.Cluster.IsFoundCandidateMaster | cluster/cluster_chk.go:282-299 | found if and only if some follower is eligible, apart from the active-passive and group-replication cases |
| LeaderChange.Cluster.Handle | cluster/cluster.go:591-705 | one event does what is due: a signal switches over if and only if the monitor is active, a switchover may start and its election finds somebody; a check ticks as the servers stand; an operator's failover completes if and only if none is under way and somebody can be elected |
| LeaderChange.Cluster.Run | cluster/cluster.go:584-713 | every sequence of observations, failure checks, switchover signals, operators' failovers and resets leaves a history: the gate sees each event with its own clocks, a failover happens exactly when the gate counts one, and the lists move by one legal change or are rebuilt from the reports |
| LeaderChange.Cluster.HistoryBounded | cluster/cluster_chk.go:166-177 | in every such history the counter stays at or below the limit all along if and only if no operator's failover completes while it stands at the limit |
| LeaderChange.Cluster.HistorySpaced | cluster/cluster_chk.go:179-191 | with a clock that does not run backwards and no reset, an automatic failover starts at least FailTime after any earlier failover completed |
| LeaderChange.Cluster.HistoryConserves | cluster/cluster_fail.go:131-136 | between two observations members now plus masters failed over are the members before, and the master stays out of its followers |
| LeaderChange.Cluster.ObservationRestarts | cluster/cluster_topo.go:188-212 | after an observation the followers are those reported live, in order and once each; a server reported failed or denied access never is one; the master is apart from them if and only if it is not reported as one |
| LeaderChange.Cluster.PingServers | cluster/cluster_topo.go:113-141 | every server shows what its ping reported |
| LeaderChange.Cluster.TopologyClusterDown | cluster/cluster_topo.go:516-545 | the master is forgotten exactly when everything is down, the cluster was discovered and unsafe failover is off |
| LeaderChange.Cluster.TopologyDiscover | cluster/cluster_topo.go:113-430 | a single server is the master; otherwise the followers are the live replicating servers in order; when everything has failed the master is forgotten unless failover may be unsafe |
| LeaderChange.Cluster.DiscoverServer | cluster/cluster_topo.go:189-257 | one server of the rebuild: listed if it is a live follower; the master if and only if it is live, follows nobody, leads, and is a group master or not another than the one an active monitor knows; opened for writes exactly then, where its copy says it is closed, it is no relay and arbitration has not failed |
| LeaderChange.Cluster.DiscoverSlaves | cluster/cluster_topo.go:188-258 | the followers are exactly the live replicating servers, in order; an active monitor keeps its master; from no known master one is found if and only if some live server that follows nobody leads; the master is among the followers exactly when the old one is kept and replicates |
| Ring.GetMasterFromReplication | cluster/cluster_get.go:668-697 | the first server the channel comes from, by reported id while running, else by address |
| Ring.SourceReported | cluster/cluster_get.go:668-697 | while both threads run the source is the first other server with the reported id, otherwise the first at the channel's address |
| Ring.GetRingChildServer | cluster/cluster_get.go:903-917 | the first server replicating from the lost one |
| Ring.GetServerFromURL | cluster/cluster_get.go:624-650 | the first server answering to the URL |
| Ring.GetRingParentServer | cluster/cluster_get.go:919-925 | the first server at the address last seen on the lost one |
| Ring.RingCluster.BootstrapRing | cluster/prov.go:669-684 | succeeds if and only if every live server can be re-pointed, and then each live server replicates from its predecessor |
| Ring.RingCluster.CloseRing | cluster/cluster_fail.go:1456-1512 | the child found replicates from the parent found if the statement goes through, nothing else changes; an error if and only if one of them is not found |
| Ring.HasCycling | cluster/srv_has.go:462-482 | true if and only if following the recorded channels comes back to the server |
| Ring.GetFailedServer | cluster/cluster_get.go:699-706 | the first failed server of the list |
| Ring.FailedMasterDiscovery | cluster/cluster_topo.go:578-595 | the failed server, by name or IP address, that the first live follower of the list points to |
| Ring.AssumedByAddress | cluster/cluster_topo.go:585-587 | a failed source is found by its name or its IP address |
| Ring.MultipleSlavesUp | cluster/cluster_topo.go:597-609 | whether some live follower points to the candidate |
| Ring.RingCluster.MonitorRing | cluster/cluster_topo.go:295-426 | the ring is closed around the first failed server of the list if some live replicating server is on no recorded cycle, otherwise around the failed server that the first follower points to, if any |
| Ring.BootstrapIsHealthy | cluster/prov.go:669-684 | bootstrap over live servers gives one cycle with clean records, where repairs start from |
| Ring.BootstrapIsRing | cluster/prov.go:669-684 | the live servers are on one cycle if and only if no server is failed |
| Ring.PathFollowsRing | cluster/prov.go:674-675 | replication followed upstream is the ring order |
| Ring.OneCycle | cluster/prov.go:674-675 | following replication from any live server returns after exactly as many steps as there are live servers, not sooner, and visits all of them |
| Ring.CloseRingExact | cluster/cluster_fail.go:1456-1512 | the survivors are on one cycle again if and only if no failed server listed before the live child is still recorded as replicating from the lost one |
| Ring.LeaderLossKeepsCycle | cluster/srv.go:471-482 | the channel kept of a lost virtual leader completes the recorded cycle of every survivor |
| Ring.LeaderLossPick | cluster/cluster_topo.go:423-426 | the lost leader is found if and only if its child is the first survivor of the list, and otherwise nobody is |
| Ring.OtherLossNoticed | cluster/srv.go:490-503 | any other loss leaves its child off every recorded cycle |
| Ring.RepairIff | cluster/cluster_topo.go:315-426 | after the loss of a server and the turn that answers it the survivors are on one cycle if and only if it was a virtual leader whose child is the first survivor of the list, or another server with no failed one listed before it, and no failed server listed before the child keeps a channel to it |
| Ring.LossIsAnswered | cluster/cluster_topo.go:295-322 | every loss has such an answering turn, so sequences of losses of any length exist |
| Ring.RingSurvives | cluster/cluster_fail.go:1414-1419 | after any number of losses, each in time, the survivors are on one cycle |
| Ring.RingSurvivesIff | cluster/cluster_fail.go:1414-1419 | over every sequence of losses from a ring without failures the survivors are on one cycle all along if and only if each loss is in time: a leader whose child is the first survivor, or another server listed before all lost earlier, and no leader lost earlier, listed before the child, had it as its source |
| Ring.BootstrapLeaderLost | cluster/prov.go:669-681 | a bootstrapped ring that loses its virtual leader is repaired if and only if that was the first or the last server |
| Ring.LostInListOrder | cluster/cluster_get.go:699-706 | a bootstrapped ring that loses the second server is repaired; after the third it is not, unless the third leads and only the first is left |
| Ring.LostLeaderShadowsTheChild | cluster/cluster_get.go:903-917 | a bootstrapped ring that loses its first server, then its last one as leader, is repaired after the first loss and not after the second |
| Arbitration.ArbitratorDb.RequestArbitration | utils/dbhelper/arbitration.go:85-126 | who wins, and the table afterwards |
| Arbitration.ArbitratorDb.WriteHeartbeat | utils/dbhelper/arbitration.go:49-72 | the row is replaced unelected, and all are unelected if the recent ones agree on the master |
| Arbitration.MonitorNode.SetArbitratorReport | cluster/cluster_set.go:1251-1293 | the report's effect on table and monitor, also when the answer is lost |
| Arbitration.MonitorNode.ArbitratorElection | cluster/cluster_split.go:56-119 | status and table after one call |
| Arbitration.MonitorNode.Heartbeat | cluster/cluster_split.go:29-54 | three attempts at most, ending with the first answer |
| Arbitration.RequestSound | utils/dbhelper/arbitration.go:93-119 | the backend never has two winners in one round |
| Arbitration.RequestRefused | utils/dbhelper/arbitration.go:93-112 | a request is refused and changes nothing while another monitor is elected or has seen fewer failed servers |
| Arbitration.RequestGranted | utils/dbhelper/arbitration.go:93-119 | otherwise it is granted and recorded, and no other row changes |
| Arbitration.RetryDecided | cluster/cluster_split.go:34-50 | the first answered of several calls decides the status, with lost ones before it not changing the answer |
| Arbitration.RetryUndecided | cluster/cluster_split.go:34-50 | without an answer the status stays and the arbitrator counts as failed |
| Arbitration.BeatAsksOnEntry | cluster/cluster_split.go:29-54 | a monitor asks for election only on entering a split brain and leaves the arbitrator alone outside one |
| Arbitration.ActsIff | cluster/cluster_chk.go:37-58 | a failure check fails over if and only if it is answered, nobody else is elected, all else permits it and the arbitrator is not taken for failed |
| Arbitration.RunSafe | cluster/cluster_split.go:29-119 | the invariant of every interleaving of any number of monitors |
| Arbitration.OneActorPerRound | cluster/cluster_chk.go:301-345 | within a round at most one monitor fails over and at most one whose election succeeded is active, and they are the same |
| Arbitration.ReportEndsTheRound | utils/dbhelper/arbitration.go:52-53 | the winner's own heartbeat leaves nobody elected |
| Arbitration.StepRound | utils/dbhelper/arbitration.go:49-126 | a step ends the round if and only if it is a heartbeat reaching the arbitrator from the elected monitor, or one after which the recent rows name one master while somebody is elected, or a loss of the table while somebody is |
| Arbitration.OneActorWhileQuiet | cluster/cluster_chk.go:301-345 | a run without such events has at most one monitor that ever fails over, and at most one whose election succeeded is active |
| Arbitration.AnyoneWinsAfterEnd | cluster/cluster_chk.go:308-342 | after such an event whichever monitor checks for failure next is the winner and fails over |
| Rolling.RollingCluster.Restart | cluster/cluster_roll.go:98-133 | one server stopped and started, with maintenance as each exit leaves it |
| Rolling.RollingCluster.RestartSlaves | cluster/cluster_roll.go:96-136 | completes exactly when every initially-up follower stops, is seen failed and starts |
| Rolling.RollingCluster.RollingRestart | cluster/cluster_roll.go:87-178 | it completes if and only if every follower that was up restarts and, once the leader has moved, so does the former master; then there was one stop for each of these, in list order; on every exit stops hit only non-masters, at most one initially-up server is down at any moment, semi-sync is not insisted on meanwhile and FailSync is restored |
| Grants.ApiUser.SetUserGrants | cluster/cluster_acl.go:30-50 | in any iteration order: old grants or prefix matches |
| Grants.ApiUser.Discard | cluster/cluster_acl.go:243-248 | exactly the named grants are switched off |
| Grants.ApiUser.Load | cluster/cluster_acl.go:237-261 | a grant is held if and only if it is not externally discarded and is externally allowed, or allowed and not discarded |
| Grants.UserBeforeColon | cluster/cluster_acl.go:228 | the user of a credential is what stands before the first colon |
| Grants.LoadAPIUsers | cluster/cluster_acl.go:212-284 | one user per name in the credentials, each with exactly those grants |
| SenderPorts.PortPool.SSTGetSenderPort | cluster/cluster_sst.go:561-570 | any port that is left, taken out of the pool; "0" exactly when ports are not configured or none is left |
| SenderPorts.PortPool.OpenReceiver | cluster/cluster_sst.go:138-155 | opening a receiver is an opening step of the pool |
| SenderPorts.PortPool.CloseReceiver | cluster/cluster_sst.go:241-255 | closing one is a closing step |
| SenderPorts.PortsConserved | cluster/cluster_sst.go:561-574 | over every run of openings and closings free, live and lost ports are apart, no port has two receivers, and every configured port is one of the three |
| SenderPorts.PortMissingIff | cluster/cluster_sst.go:138-142 | after any run a configured port is neither free nor live if and only if some bind of it, handed out of the pool, failed and none has succeeded since |
| SenderPorts.FailedBindLosesThePort | cluster/cluster_sst.go:138-142 | a failed bind leaves the port neither free nor live |
| Placement.GetDatabaseAgent | cluster/prov.go:695-714 | the agent of the first server with the id, by position modulo the number of agents; none exactly for an unknown id |
| Placement.DealtInOrder | cluster/prov.go:703-704 | servers are dealt to the agents in the order of their list, round after round |
| Placement.Balanced | cluster/prov.go:695-714 | with distinct agent names no agent gets two servers more than another, for any number of servers |

## Left out

- VMasterFailover: the virtual-master path for wsrep and group replication, and in a ring its use of an index into `Servers` on `slaves` (cluster/cluster_fail.go:1275-1282): who is the virtual leader after a repair is left open. For the ring, what discovery notices, the server it picks and CloseRing are modelled.
- Servers that return to a ring after they were lost, and suspect or access-denied servers in a ring: each is live or failed.
- SQL text, binlog catch-up, relay servers, semi-sync switches, proxies, scripts, crash files and multi-source channels of a leader change (cluster/cluster_fail.go:143-241, 592-648).
- Configuration reload, which zeroes FailTime (cluster/cluster.go:1752-1753), and changes of topology flags by discovery.
- How the steps of TopologyDiscover after the rebuild of the follower list choose a master (cluster/cluster_topo.go:260-430): any choice is allowed for.
- LeaderChange.Cluster.MayFailOver: a missing master met by the test of its state, a crash in the source, ends the check.
- Group-replication candidates: electSwitchoverGroupReplicationCandidate is a single answer in the failure check.
- Floating-point rounding and overflow, and 32-bit overflow of delay counters.
- super_read_only, which follows read_only in the source.
- A server has one replication channel; named channels of multi-source replication are not modelled in the ring.
- Roles and passwords of API users, and the parsing of access lists into one entry per user (cluster/cluster_acl.go:158-210).
- Looking an agent up by name in the orchestrator, and the transfer of files over the ports handed out.
- Rolling.RollingCluster.RollingRestart: each switchover it asks for leaves any leader; no other leader change interleaves.
- LeaderChange.Cluster.DiscoverSlaves: states who is listed and who leads; what each server's read-only variable becomes is stated by DiscoverServer.
