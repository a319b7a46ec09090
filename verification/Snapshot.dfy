/** One monitoring snapshot: what the monitor knows of its servers when it has to
    choose a new leader, and the two tests a candidate must pass. */
module Snapshot {
  import opened Prelude
  import opened Coordinates
  import opened DelayStats

  const TWO_TO_64: nat := 0x1_0000_0000_0000_0000

  datatype ServerState =
    | Master | Replica | Failed | Suspect | Unconnected | RelayServer
    | Wsrep | WsrepDonor | WsrepLate | ErrorAuth | OtherState

  datatype Gtid = Gtid(domainId: nat, serverId: nat, seqNo: nat)

  datatype SlaveStatus = SlaveStatus(
    ioRunning: string,
    sqlRunning: string,
    secondsBehind: Option<int>,
    masterLogFile: string,
    readMasterLogPos: string,
    gtidIOPos: seq<Gtid>)

  /** A monitored server. `status` is None when the replication channel is not found;
      the last fields compare it with the current master. */
  datatype Server = Server(
    url: string,
    name: string,
    sourceCluster: string,
    domainId: nat,
    state: ServerState,
    ignored: bool,
    prefered: bool,
    isRelay: bool,
    isMaxscale: bool,
    isFull: bool,
    isMaintenance: bool,
    haveNoMasterOnStart: bool,
    hasBinlog: bool,
    meetsPrerequisites: bool,
    haveSemiSync: bool,
    semiSyncSlave: bool,
    hasMdevIssue: bool,
    hasErrantTransactions: bool,
    status: Option<SlaveStatus>,
    slaveGtid: seq<Gtid>,
    delay: DelayStat,
    major: int,
    minor: int,
    filtersReadable: bool,
    sameBinlogFilters: bool,
    sameReplicationFilters: bool,
    sameGtid: bool)

  datatype Conf = Conf(
    clusterName: string,
    preferedHosts: seq<string>,
    multiMaster: bool,
    failRestartUnsafe: bool,
    rplChecks: bool,
    failMaxDelay: int,
    failSync: bool,
    failoverMdevCheck: bool,
    failoverCheckDelayStat: bool,
    switchLowerRelease: bool,
    checkBinFilter: bool,
    checkReplFilter: bool,
    switchGtidCheck: bool,
    switchSync: bool)

  datatype Leader = Leader(url: string, state: ServerState, domainId: nat, major: int, minor: int)

  datatype View = View(conf: Conf, wsrepTopology: bool, master: Option<Leader>, vmaster: Option<Leader>)

  function GetMaster(v: View): Option<Leader> {
    if v.master.None? then v.vmaster else v.master
  }

  predicate IsMasterFailed(v: View) {
    var m := GetMaster(v);
    m.None? || m.value.state.Failed?
  }

  predicate IsChild(v: View, s: Server) { s.sourceCluster != v.conf.clusterName }

  predicate IsInPreferedHosts(v: View, s: Server) {
    !IsChild(v, s) && (s.url in v.conf.preferedHosts || s.name in v.conf.preferedHosts)
  }

  function Behind(ss: SlaveStatus): int { if ss.secondsBehind.Some? then ss.secondsBehind.value else 0 }

  /** The checks of isSlaveElectable, in its order. */
  predicate IsSlaveElectable(v: View, s: Server) {
    if IsChild(v, s) then false
    else if s.status.None? then false
    else
      var ss := s.status.value;
      if ss.ioRunning == "No" && v.conf.rplChecks && !IsMasterFailed(v) then false
      else if !s.meetsPrerequisites then false
      else if s.isMaintenance then false
      else if Behind(ss) > v.conf.failMaxDelay && v.conf.failMaxDelay != -1 && v.conf.rplChecks then false
      else if ss.sqlRunning == "No" && v.conf.rplChecks then false
      else if s.haveSemiSync && !s.semiSyncSlave && v.conf.failSync && v.conf.rplChecks then false
      else if v.conf.failoverMdevCheck && s.hasMdevIssue then false
      else !s.ignored
  }

  /** The checks of isSlaveElectableForSwitchover, in its order. */
  predicate IsSlaveElectableForSwitchover(v: View, s: Server)
    requires v.master.Some?
  {
    var m := v.master.value;
    if IsChild(v, s) then false
    else if s.status.None? then false
    else if !s.filtersReadable then false
    else if !v.conf.switchLowerRelease && (s.major < m.major || (s.major == m.major && s.minor < m.minor)) then false
    else if !s.sameBinlogFilters && v.conf.checkBinFilter then false
    else if !s.sameReplicationFilters && v.conf.checkReplFilter then false
    else if v.conf.switchGtidCheck && !s.sameGtid && v.conf.rplChecks then false
    else if s.haveSemiSync && !s.semiSyncSlave && v.conf.switchSync && v.conf.rplChecks then false
    else if s.status.value.secondsBehind.None? && v.conf.rplChecks then false
    else if s.isMaxscale || s.isRelay then false
    else !s.hasErrantTransactions
  }

  // ---- How far a server has read ----

  function LogFile(s: Server): string {
    if s.status.Some? then s.status.value.masterLogFile else "master.000001"
  }

  function LogOffset(s: Server): string {
    if s.status.Some? then s.status.value.readMasterLogPos else "1"
  }

  function DomainSeqNos(gtids: seq<Gtid>, domainId: nat): seq<nat> {
    if gtids == [] then []
    else (if gtids[0].domainId == domainId then [gtids[0].seqNo] else []) + DomainSeqNos(gtids[1..], domainId)
  }

  function SeqNos(v: View, s: Server): seq<nat>
    requires v.master.Some?
  {
    if s.status.None? then [1]
    else if !v.master.value.state.Failed? then DomainSeqNos(s.slaveGtid, v.master.value.domainId)
    else DomainSeqNos(s.status.value.gtidIOPos, v.master.value.domainId)
  }

  /** Sum in unsigned 64-bit arithmetic. */
  function WrapSum(xs: seq<nat>): nat {
    if xs == [] then 0 else (WrapSum(xs[..|xs| - 1]) + xs[|xs| - 1]) % TWO_TO_64
  }

  lemma AddModulo(a: nat, b: nat)
    ensures (a % TWO_TO_64 + b) % TWO_TO_64 == (a + b) % TWO_TO_64
  {
  }

  lemma {:induction false} SumNat(xs: seq<nat>)
    ensures Sum(xs) >= 0
  {
    if xs != [] {
      SumNat(xs[..|xs| - 1]);
    }
  }

  /** The wrapped sum is the true sum modulo 2^64. */
  lemma {:induction false} WrapSumIsModulo(xs: seq<nat>)
    ensures Sum(xs) >= 0 && WrapSum(xs) == Sum(xs) % TWO_TO_64
  {
    SumNat(xs);
    if xs != [] {
      var front := xs[..|xs| - 1];
      WrapSumIsModulo(front);
      AddModulo(Sum(front), xs[|xs| - 1]);
    }
  }

  method AddSeqNos(xs: seq<nat>) returns (sum: nat)
    ensures sum == WrapSum(xs)
  {
    sum := 0;
    for i := 0 to |xs|
      invariant sum == WrapSum(xs[..i])
    {
      assert xs[..i + 1][..i] == xs[..i];
      sum := (sum + xs[i]) % TWO_TO_64;
    }
    assert xs[..|xs|] == xs;
  }

  function Sequence(v: View, s: Server): nat
    requires v.master.Some?
  {
    WrapSum(SeqNos(v, s))
  }

  function Position(s: Server): nat
    requires '.' in LogFile(s)
  {
    Packed(LogFile(s), LogOffset(s))
  }

  // ---- What the tests and positions mean, in the server's own fields ----

  /** A server may be promoted after a loss exactly when it belongs to the cluster, replicates, meets the
      prerequisites, is neither ignored nor in maintenance and, with replication checks on, applies its log, is not
      too late and in sync as asked. A stopped IO thread only counts while the master is alive. */
  lemma ElectableIff(v: View, s: Server)
    requires v.master.Some?
    ensures IsSlaveElectable(v, s) <==>
            && s.sourceCluster == v.conf.clusterName && s.status.Some? && s.meetsPrerequisites
            && !s.ignored && !s.isMaintenance && !(v.conf.failoverMdevCheck && s.hasMdevIssue)
            && (v.conf.rplChecks ==>
                  && s.status.value.sqlRunning != "No"
                  && (v.master.value.state == Failed || s.status.value.ioRunning != "No")
                  && (v.conf.failMaxDelay == -1
                      || match s.status.value.secondsBehind
                         case Some(late) => late <= v.conf.failMaxDelay
                         case None => 0 <= v.conf.failMaxDelay)
                  && (v.conf.failSync && s.haveSemiSync ==> s.semiSyncSlave))
  {
  }

  /** With the master lost a stopped IO thread never disqualifies. */
  lemma StoppedIoIsNoMatter(v: View, s: Server, io: string)
    requires v.master.Some? && v.master.value.state == Failed && s.status.Some?
    ensures IsSlaveElectable(v, s.(status := Some(s.status.value.(ioRunning := io)))) == IsSlaveElectable(v, s)
  {
  }

  lemma ElectableForSwitchoverIff(v: View, s: Server)
    requires v.master.Some?
    ensures var m := v.master.value;
            IsSlaveElectableForSwitchover(v, s) <==>
            && s.sourceCluster == v.conf.clusterName && s.status.Some? && s.filtersReadable
            && !s.isMaxscale && !s.isRelay && !s.hasErrantTransactions
            && (v.conf.switchLowerRelease || s.major > m.major || (s.major == m.major && s.minor >= m.minor))
            && (v.conf.checkBinFilter ==> s.sameBinlogFilters) && (v.conf.checkReplFilter ==> s.sameReplicationFilters)
            && (v.conf.rplChecks ==>
                  && s.status.value.secondsBehind.Some?
                  && (v.conf.switchGtidCheck ==> s.sameGtid)
                  && (v.conf.switchSync && s.haveSemiSync ==> s.semiSyncSlave))
  {
  }

  /** Entry k is the only one of its domain. */
  ghost predicate OnlyEntry(gtids: seq<Gtid>, domainId: nat, k: nat) {
    k < |gtids| && forall i :: 0 <= i < |gtids| ==> (gtids[i].domainId == domainId <==> i == k)
  }

  lemma {:induction false} NoEntry(gtids: seq<Gtid>, domainId: nat)
    requires forall i :: 0 <= i < |gtids| ==> gtids[i].domainId != domainId
    ensures DomainSeqNos(gtids, domainId) == []
  {
    if gtids != [] {
      NoEntry(gtids[1..], domainId);
    }
  }

  lemma {:induction false} OneEntry(gtids: seq<Gtid>, domainId: nat, k: nat)
    requires OnlyEntry(gtids, domainId, k)
    ensures DomainSeqNos(gtids, domainId) == [gtids[k].seqNo]
  {
    if k == 0 {
      NoEntry(gtids[1..], domainId);
    } else {
      OneEntry(gtids[1..], domainId, k - 1);
    }
  }

  lemma SumOfOne(n: nat)
    ensures WrapSum([n]) == n % TWO_TO_64
  {
    assert [n][..0] == [];
  }

  /** With a failed master a server is ranked by what it has received of the master's domain. */
  lemma RankedByReceived(v: View, s: Server, k: nat)
    requires v.master.Some? && v.master.value.state == Failed && s.status.Some?
    requires OnlyEntry(s.status.value.gtidIOPos, v.master.value.domainId, k)
    ensures Sequence(v, s) == s.status.value.gtidIOPos[k].seqNo % TWO_TO_64
  {
    OneEntry(s.status.value.gtidIOPos, v.master.value.domainId, k);
    SumOfOne(s.status.value.gtidIOPos[k].seqNo);
  }

  /** While the master is alive, by what it has executed. */
  lemma RankedByExecuted(v: View, s: Server, k: nat)
    requires v.master.Some? && v.master.value.state != Failed && s.status.Some?
    requires OnlyEntry(s.slaveGtid, v.master.value.domainId, k)
    ensures Sequence(v, s) == s.slaveGtid[k].seqNo % TWO_TO_64
  {
    OneEntry(s.slaveGtid, v.master.value.domainId, k);
    SumOfOne(s.slaveGtid[k].seqNo);
  }

  /** The position of a replicating server is the one it reads in its master's log. */
  lemma PositionRead(s: Server, base: string, suffix: string)
    requires s.status.Some? && s.status.value.masterLogFile == base + "." + suffix
    requires '.' !in base && AllDigits(suffix) && AllDigits(s.status.value.readMasterLogPos)
    ensures '.' in LogFile(s) && Position(s) == Min(Exact(suffix, s.status.value.readMasterLogPos), MAX_UINT64)
  {
    PackedValue(base, suffix, s.status.value.readMasterLogPos);
  }

  /** A server without a replication status counts as at the very start: first file, offset 1, sequence 1. */
  lemma PlaceholderRank(v: View, s: Server)
    requires v.master.Some? && s.status.None?
    ensures '.' in LogFile(s) && Position(s) == 1_000_000_000_001 && Sequence(v, s) == 1
  {
    assert "master" + "." + "000001" == "master.000001";
    assert Value("000001") == 1 && Value("1") == 1 by {
      ValueAppend("00000", "1");
      assert "00000" + "1" == "000001";
      ZeroPadding();
    }
    TenToTheTwelve();
    PackedValue("master", "000001", "1");
    SumOfOne(1);
  }

  lemma ZeroPadding()
    ensures Value("00000") == 0 && Value("1") == 1
  {
    assert "00000"[..4] == "0000" && "0000"[..3] == "000" && "000"[..2] == "00" && "00"[..1] == "0" && "0"[..0] == "";
    assert Value("0") == 0 && Value("00") == 0 && Value("000") == 0 && Value("0000") == 0;
  }
}
