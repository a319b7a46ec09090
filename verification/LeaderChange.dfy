/** The phased change of leader: MasterFailover on a topology with a single writer. */
module LeaderChange {
  import opened Prelude
  import opened Snapshot
  import opened Membership
  import FailoverElection
  import SwitchoverElection
  import FailoverGate

  /** SQL statements that open or close a server for writes. */
  datatype Action = FreezeOld | OpenNew | CloseOld | OpenOld | CloseSlave(url: string) | OpenSlave(url: string)

  /** What the outside world answers during one leader change. */
  datatype Env = Env(connected: bool, longWrites: nat, flushedInTime: bool, succeeds: Action -> bool, doneAt: int)

  ghost predicate AllSucceed(env: Env) { forall a :: env.succeeds(a) }

  datatype Options = Options(
    readOnly: bool,
    multiMasterGrouprep: bool,
    multiMasterConcurrentWrite: bool,
    mxsBinlogOn: bool,
    arbitration: bool,
    interactive: bool,
    activePassive: bool,
    masterSlave: bool,
    maxFail: int,
    limits: FailoverGate.Limits)

  /** The remaining answers the failure check collects. */
  datatype Signals = Signals(
    groupCandidate: bool,
    noErrantTransaction: bool,
    sameWsrepUUID: bool,
    arbitratorSaysWinner: bool,
    externalOk: bool,
    heartbeatIncreasing: bool,
    maxscaleRunning: bool)

  /** What a ping finds out about one server. */
  datatype Report = Report(
    info: Server,
    readOnly: bool,
    haveReadOnly: bool,
    failCount: int,
    isFollower: bool,
    isGroupMaster: bool,
    binlogDumpThreads: nat)

  predicate Down(state: ServerState) { state.Failed? || state.ErrorAuth? }

  predicate LiveFollower(r: Report) { !Down(r.info.state) && r.isFollower }

  /** What the later steps of discovery may settle on instead of the master found so far: a server that is only
      assumed to be the master, or one that is made the master and perhaps opened for writes. */
  datatype Settlement = AsFound | Assumed(key: nat) | Crowned(key: nat, open: bool)

  /** What the monitor loop may meet: a switchover signal, or a turn of its own, which observes the servers and then
      checks for failure; and, from outside the loop, a failover asked for by an operator or a reset of the counter.
      */
  datatype Event =
    | SwitchSignal(active: bool, now: int, env: Env)
    | Observe(now: int, ping: nat -> Report, failedArbitrator: bool, active: bool, discovered: bool,
              settles: Settlement)
    | MonitorTick(now: int, signals: Signals, env: Env)
    | ManualFailover(now: int, env: Env)
    | ResetFailoverCtr(now: int)

  /** A monitored database: `info` is what the last ping says of it apart from the fields below, which leader changes
      write; `readOnly` is the server's own variable, `haveReadOnly` the monitor's copy of it, brought up to date by
      Refresh. */
  class ServerMonitor {
    const url: string
    const ignoredRO: bool
    var info: Server
    var state: ServerState
    var haveNoMasterOnStart: bool
    var readOnly: bool
    var haveReadOnly: bool
    var failCount: int
    var isFollower: bool
    var isGroupMaster: bool
    var binlogDumpThreads: nat

    constructor (info: Server, ignoredRO: bool, readOnly: bool)
      ensures this.url == info.url && this.info == info && this.ignoredRO == ignoredRO
      ensures state == info.state && haveNoMasterOnStart == info.haveNoMasterOnStart
      ensures this.readOnly == readOnly && this.haveReadOnly == readOnly && failCount == 0
    {
      url, this.info, this.ignoredRO := info.url, info, ignoredRO;
      state, haveNoMasterOnStart := info.state, info.haveNoMasterOnStart;
      this.readOnly, haveReadOnly, failCount := readOnly, readOnly, 0;
      isFollower, isGroupMaster, binlogDumpThreads := false, false, 0;
    }

    /** The server as an election sees it: the last report, with its present state. */
    function Snap(): (r: Server)
      reads this
      ensures r.url == url && r.state == state && r.haveNoMasterOnStart == haveNoMasterOnStart
      ensures r.status == info.status && r.slaveGtid == info.slaveGtid && r.delay == info.delay
    {
      info.(url := url, state := state, haveNoMasterOnStart := haveNoMasterOnStart)
    }

    /** The monitor knows of the server what the report says. */
    predicate Shows(r: Report)
      reads this
    {
      && info == r.info && state == r.info.state && haveNoMasterOnStart == r.info.haveNoMasterOnStart
      && readOnly == r.readOnly && haveReadOnly == r.haveReadOnly && failCount == r.failCount
      && isFollower == r.isFollower && isGroupMaster == r.isGroupMaster && binlogDumpThreads == r.binlogDumpThreads
    }

    method Ping(r: Report)
      modifies this
      ensures Shows(r)
    {
      info, state, haveNoMasterOnStart := r.info, r.info.state, r.info.haveNoMasterOnStart;
      readOnly, haveReadOnly, failCount := r.readOnly, r.haveReadOnly, r.failCount;
      isFollower, isGroupMaster, binlogDumpThreads := r.isFollower, r.isGroupMaster, r.binlogDumpThreads;
    }

    method Refresh()
      modifies this`haveReadOnly
      ensures haveReadOnly == readOnly
    {
      haveReadOnly := readOnly;
    }

    /** Writes are rejected until SetReadWrite. */
    method Freeze(succeeds: bool)
      modifies this`readOnly
      ensures readOnly == (old(readOnly) || succeeds)
    {
      if succeeds {
        readOnly := true;
      }
    }

    method SetReadOnly(succeeds: bool)
      modifies this`readOnly
      ensures readOnly == (old(readOnly) || (!haveReadOnly && succeeds))
    {
      if !haveReadOnly && succeeds {
        readOnly := true;
      }
    }

    method SetReadWrite(arbitrationLost: bool, succeeds: bool)
      modifies this`readOnly
      ensures readOnly == (old(readOnly) && (arbitrationLost || !haveReadOnly || !succeeds))
    {
      if arbitrationLost {
        return;
      }
      if haveReadOnly && succeeds {
        readOnly := false;
      }
    }
  }

  function Infos(l: seq<ServerMonitor>): (r: seq<Server>)
    reads l
    ensures |r| == |l|
  {
    if l == [] then [] else Infos(l[..|l| - 1]) + [l[|l| - 1].Snap()]
  }

  class Cluster {
    const conf: Conf
    const opts: Options
    const servers: seq<ServerMonitor>
    var slaves: seq<ServerMonitor>
    var master: ServerMonitor?
    var vmaster: ServerMonitor?
    var oldMaster: ServerMonitor?
    var failoverCtr: int
    var failoverTs: int
    var inFailover: bool
    var isFailedArbitrator: bool

    constructor (conf: Conf, opts: Options, servers: seq<ServerMonitor>, master: ServerMonitor?,
                 slaves: seq<ServerMonitor>)
      ensures this.conf == conf && this.opts == opts && this.servers == servers
      ensures this.master == master && this.slaves == slaves && oldMaster == null && vmaster == null
      ensures failoverCtr == 0 && failoverTs == 0 && !inFailover && !isFailedArbitrator
    {
      this.conf, this.opts, this.servers, this.master, this.slaves := conf, opts, servers, master, slaves;
      vmaster, oldMaster, failoverCtr, failoverTs := null, null, 0, 0;
      inFailover, isFailedArbitrator := false, false;
    }

    ghost predicate UniqueUrls() { forall i, j :: 0 <= i < j < |servers| ==> servers[i].url != servers[j].url }

    /** Unique addresses, and followers and master drawn from the servers: what every step keeps. */
    ghost predicate Sound()
      reads this`slaves, this`master
    {
      && UniqueUrls()
      && (forall s :: s in slaves ==> s in servers)
      && (master != null ==> master in servers)
    }

    /** Besides, followers are listed once and, with one writer, the master is none of them. */
    ghost predicate Valid()
      reads this`slaves, this`master
    {
      && Sound()
      && Distinct(slaves)
      && (!conf.multiMaster && master != null ==> master !in slaves)
    }

    function GetMaster(): ServerMonitor?
      reads this
    {
      if master == null then vmaster else master
    }

    function Lead(s: ServerMonitor?): Option<Leader>
      reads s
    {
      if s == null then None else Some(Leader(s.url, s.state, s.info.domainId, s.info.major, s.info.minor))
    }

    /** What an election knows of the present master. */
    function Now(): (v: View)
      reads this, master, vmaster
      ensures v.conf == conf && (v.master.Some? <==> master != null)
      ensures master != null ==> v.master.value.state == master.state && v.master.value.domainId == master.info.domainId
    {
      View(conf, false, Lead(master), Lead(vmaster))
    }

    ghost function Writers(): set<ServerMonitor>
      reads servers`readOnly
    {
      set s | s in servers && !s.readOnly
    }

    predicate ArbitrationLost()
      reads this`isFailedArbitrator
    {
      opts.arbitration && isFailedArbitrator
    }

    /** Only the read-only copies kept by the monitor may differ from the old state. */
    twostate predicate Untouched()
      reads this, servers
    {
      && slaves == old(slaves) && master == old(master) && vmaster == old(vmaster) && oldMaster == old(oldMaster)
      && failoverCtr == old(failoverCtr) && failoverTs == old(failoverTs)
      && isFailedArbitrator == old(isFailedArbitrator)
      && (forall s :: s in servers ==> && s.state == old(s.state) && s.haveNoMasterOnStart == old(s.haveNoMasterOnStart)
                                       && s.readOnly == old(s.readOnly) && s.info == old(s.info))
    }

    method RefreshSlaves()
      requires Sound()
      modifies servers`haveReadOnly
      ensures Writers() == old(Writers())
      ensures forall s :: s in slaves ==> s.haveReadOnly == s.readOnly
    {
      for i := 0 to |slaves|
        invariant forall k :: 0 <= k < i ==> slaves[k].haveReadOnly == slaves[k].readOnly
      {
        assert slaves[i] in slaves;
        slaves[i].Refresh();
      }
    }

    /** The first server with the URL; 0 when there is none. */
    method IndexOf(url: string) returns (skey: nat)
      ensures (forall k :: 0 <= k < |servers| ==> servers[k].url != url) ==> skey == 0
      ensures (exists k :: 0 <= k < |servers| && servers[k].url == url) ==>
                skey < |servers| && servers[skey].url == url && forall k :: 0 <= k < skey ==> servers[k].url != url
    {
      for k := 0 to |servers|
        invariant forall i :: 0 <= i < k ==> servers[i].url != url
      {
        if servers[k].url == url {
          return k;
        }
      }
      return 0;
    }

    /** Swap-removes the first follower with the URL. */
    method Delete(url: string)
      modifies this`slaves
      ensures url !in Urls(old(slaves)) ==> slaves == old(slaves)
      ensures forall k :: 0 <= k < |old(slaves)| && IsFirst(old(slaves), k, url) ==>
                slaves == SwapRemove(old(slaves), k)
      ensures forall s :: s in slaves ==> s in old(slaves)
    {
      for k := 0 to |slaves|
        invariant slaves == old(slaves)
        invariant forall i :: 0 <= i < k ==> slaves[i].url != url
      {
        if slaves[k].url == url {
          slaves := slaves[k := slaves[|slaves| - 1]];
          slaves := slaves[..|slaves| - 1];
          assert Urls(old(slaves))[k] == url;
          return;
        }
      }
    }

    /** SetMaster: the server becomes the master and no server waits for one any more. */
    method SetMaster(m: ServerMonitor)
      requires m in servers
      modifies servers`state, servers`haveNoMasterOnStart
      ensures forall s :: s in servers ==>
                s.state == (if s == m then Master else old(s.state)) && !s.haveNoMasterOnStart
    {
      m.state := Master;
      for i := 0 to |servers|
        invariant forall k :: 0 <= k < i ==> !servers[k].haveNoMasterOnStart
        invariant forall s :: s in servers ==> s.state == (if s == m then Master else old(s.state))
      {
        servers[i].haveNoMasterOnStart := false;
      }
    }

    /** End of phase 1: the elected follower becomes the master and leaves the followers. */
    method Promote(key: nat)
      requires Sound() && key < |slaves| && master != null
      modifies this`slaves, this`master, this`oldMaster, servers`state, servers`haveNoMasterOnStart
      ensures Sound() && (old(Valid()) ==> Valid())
      ensures master == old(slaves)[key] && oldMaster == old(master)
      ensures conf.multiMaster ==> slaves == old(slaves)
      ensures !conf.multiMaster && old(Valid()) ==> slaves == SwapRemove(old(slaves), key)
      ensures forall s :: s in slaves ==> s in old(slaves)
      ensures forall s :: s in servers ==>
                s.state == (if s == master then Master else old(s.state)) && !s.haveNoMasterOnStart
    {
      assert slaves[key] in slaves;
      var chosen := slaves[key];
      var skey := IndexOf(chosen.url);
      assert servers[skey] == chosen;
      oldMaster := master;
      master := servers[skey];
      SetMaster(master);
      if !conf.multiMaster {
        assert Distinct(slaves) ==> IsFirst(slaves, key, chosen.url) by {
          if Distinct(slaves) {
            forall i | 0 <= i < key ensures slaves[i].url != chosen.url {
              assert slaves[i] in slaves && slaves[i] != slaves[key];
            }
          }
        }
        Delete(chosen.url);
      }
    }

    // ---- Phase 5 ----

    /** The followers that are re-pointed to the new master. */
    predicate Switched(sl: ServerMonitor)
      reads this, sl
      requires oldMaster != null
    {
      !(conf.multiMaster || opts.multiMasterGrouprep
        || sl.state.Wsrep? || sl.state.WsrepDonor? || sl.state.WsrepLate?
        || sl.url == oldMaster.url || sl.state.Master?
        || (!sl.info.isRelay && opts.mxsBinlogOn))
    }

    predicate Closes(sl: ServerMonitor) { opts.readOnly && !opts.mxsBinlogOn && !sl.ignoredRO }

    predicate Opens(sl: ServerMonitor) { !Closes(sl) && !opts.mxsBinlogOn }

    /** The read-only variable of a follower after phase 5, from the variable and the
        monitor's copy of it before. */
    function Final(env: Env, sl: ServerMonitor, readOnly: bool, copy: bool): bool
      requires oldMaster != null
      reads this, sl
    {
      if !Switched(sl) then readOnly
      else if Closes(sl) then readOnly || (!copy && env.succeeds(CloseSlave(sl.url)))
      else if Opens(sl) then readOnly && (ArbitrationLost() || !copy || !env.succeeds(OpenSlave(sl.url)))
      else readOnly
    }

    method SwitchSlave(env: Env, sl: ServerMonitor)
      requires oldMaster != null
      modifies sl`readOnly
      ensures sl.readOnly == Final(env, sl, old(sl.readOnly), sl.haveReadOnly)
    {
      if !Switched(sl) {
        return;
      }
      if Closes(sl) {
        sl.SetReadOnly(env.succeeds(CloseSlave(sl.url)));
      } else if !opts.mxsBinlogOn {
        sl.SetReadWrite(ArbitrationLost(), env.succeeds(OpenSlave(sl.url)));
      }
    }

    /** The followers that phase 5 may open for writes. */
    ghost function Opened(): set<ServerMonitor>
      requires oldMaster != null
      reads this, slaves
    {
      set s | s in slaves && Switched(s) && Opens(s)
    }

    /** The writers once every follower has the read-only variable that phase 5 gives it, when nobody but the new
        master accepted writes before. */
    twostate lemma SwitchedWriters(env: Env)
      requires Valid() && !conf.multiMaster && master != null && oldMaster != null && AllSucceed(env)
      requires old(Writers()) <= {master}
      requires forall s :: s in slaves ==> s.readOnly == Final(env, s, old(s.readOnly), s.haveReadOnly)
      requires forall s :: s in servers && s !in slaves ==> s.readOnly == old(s.readOnly)
      requires forall s :: s in slaves && s != oldMaster ==> s.haveReadOnly == old(s.readOnly)
      ensures Writers() == old(Writers()) + if ArbitrationLost() then {} else Opened()
    {
      forall s | s in slaves ensures old(s.readOnly) {
        assert s in servers && s !in old(Writers());
      }
    }

    method SwitchSlavesToMaster(env: Env) returns (ghost trace: seq<set<ServerMonitor>>)
      requires Sound() && oldMaster != null
      modifies servers`readOnly
      ensures Distinct(slaves) ==>
                forall s :: s in slaves ==> s.readOnly == Final(env, s, old(s.readOnly), s.haveReadOnly)
      ensures forall s :: s in servers && s !in slaves ==> s.readOnly == old(s.readOnly)
      ensures forall w :: w in trace ==> w <= old(Writers()) + Opened()
      ensures |trace| == |slaves|
    {
      trace := [];
      ghost var bound := Writers() + Opened();
      for i := 0 to |slaves|
        invariant Distinct(slaves) ==> forall k :: 0 <= k < i ==>
                    slaves[k].readOnly == Final(env, slaves[k], old(slaves[k].readOnly), slaves[k].haveReadOnly)
        invariant Distinct(slaves) ==> forall k :: i <= k < |slaves| ==> slaves[k].readOnly == old(slaves[k].readOnly)
        invariant forall s :: s in servers && s !in slaves ==> s.readOnly == old(s.readOnly)
        invariant Writers() <= bound
        invariant |trace| == i && forall w :: w in trace ==> w <= bound
      {
        assert slaves[i] in slaves;
        SwitchSlave(env, slaves[i]);
        trace := trace + [Writers()];
      }
    }

    // ---- Phases 2 to 4 ----

    /** Phases 2 and 3: on a switchover the old master is frozen; the new one is opened. */
    method HandOver(fail: bool, env: Env) returns (ghost trace: seq<set<ServerMonitor>>)
      requires Sound() && master != null && oldMaster != null && oldMaster in servers
      modifies servers`readOnly, servers`haveReadOnly
      ensures oldMaster != master ==>
                oldMaster.readOnly == (old(oldMaster.readOnly) || (!fail && env.succeeds(FreezeOld)))
      ensures oldMaster != master ==>
                master.readOnly
                == (old(master.readOnly)
                    && (ArbitrationLost() || (fail && !old(master.haveReadOnly)) || !env.succeeds(OpenNew)))
      ensures forall s :: s in servers && s != master && s != oldMaster ==> s.readOnly == old(s.readOnly)
      ensures forall s :: s in servers && s != master ==> s.haveReadOnly == old(s.haveReadOnly)
      ensures !fail && oldMaster != master && AllSucceed(env) && old(Writers()) <= {oldMaster} ==>
                Writers() == (if ArbitrationLost() then {} else {master}) && forall w :: w in trace ==> w <= {master}
      ensures !fail ==> |trace| == 2
    {
      assert forall s :: s in servers && s !in Writers() ==> s.readOnly;
      trace := [];
      if !fail {
        oldMaster.Freeze(env.succeeds(FreezeOld));
        trace := trace + [Writers()];
        master.Refresh();
      }
      master.SetReadWrite(ArbitrationLost(), env.succeeds(OpenNew));
      trace := trace + [Writers()];
    }

    /** Phase 4: the old master is closed for writes and joins the followers. */
    method Demote(env: Env) returns (ghost trace: seq<set<ServerMonitor>>)
      requires Sound() && master != null && oldMaster != null && oldMaster in servers
      modifies this`slaves, oldMaster`state, oldMaster`readOnly, oldMaster`haveReadOnly
      ensures Sound()
      ensures old(Valid()) && (conf.multiMaster || (oldMaster !in old(slaves) && oldMaster != master)) ==> Valid()
      ensures slaves == if conf.multiMaster then old(slaves) else old(slaves) + [oldMaster]
      ensures oldMaster.state == Replica && oldMaster.haveReadOnly == old(oldMaster.readOnly)
      ensures opts.readOnly ==> oldMaster.readOnly == (old(oldMaster.readOnly) || env.succeeds(CloseOld))
      ensures !opts.readOnly && !conf.multiMaster ==> oldMaster.readOnly == old(oldMaster.readOnly)
      ensures !conf.multiMaster && oldMaster !in old(Writers()) ==> Writers() == old(Writers())
      ensures trace == [Writers()]
    {
      oldMaster.Refresh();
      if opts.readOnly {
        oldMaster.SetReadOnly(env.succeeds(CloseOld));
      } else if conf.multiMaster && opts.multiMasterConcurrentWrite {
        oldMaster.SetReadWrite(ArbitrationLost(), env.succeeds(OpenOld));
      }
      oldMaster.state := Replica;
      if !conf.multiMaster {
        slaves := slaves + [oldMaster];
      }
      trace := [Writers()];
    }

    ghost function Lists(): Members<ServerMonitor?>
      reads this`slaves, this`master
    {
      Members(master, slaves)
    }

    /** The writers after each statement that opens or closes a server, three for the exchange and one
        per follower: never more than the new master and the followers opened on purpose. */
    ghost predicate Guarded(trace: seq<set<ServerMonitor>>)
      requires oldMaster != null && master != null
      reads this, slaves
    {
      |trace| == 3 + |slaves| && forall w :: w in trace ==> w <= {master} + Opened()
    }

    /** The lists after a completed call that promoted follower number `key`. */
    twostate predicate ListsChanged(fail: bool, key: nat)
      reads this`slaves, this`master
      requires key < |old(slaves)|
    {
      && Sound()
      && (conf.multiMaster ==> slaves == old(slaves))
      && (old(Valid()) ==> Valid())
      && (!conf.multiMaster && old(Valid()) ==>
            Lists() == Apply(old(Lists()), if fail then Failover(key) else Switchover(key)))
    }

    /** The states after a completed call: the new master's, the old one's if it stays as a follower, all others as
        they were; and nobody waits for a first master. */
    twostate predicate Roles(fail: bool)
      reads this, servers
    {
      old(Valid()) && !conf.multiMaster ==>
        forall s :: s in servers ==>
          && s.state == (if s == master then Master else if !fail && s == oldMaster then Replica else old(s.state))
          && !s.haveNoMasterOnStart
    }

    /** Phases 2 to 4 of a switchover: the one writer is exchanged. */
    method Exchange(key: nat, env: Env) returns (ghost trace: seq<set<ServerMonitor>>)
      requires Sound() && key < |slaves| && master != null
      requires forall s :: s in slaves ==> s.haveReadOnly == s.readOnly
      modifies this`slaves, this`master, this`oldMaster
      modifies servers`state, servers`haveNoMasterOnStart, servers`readOnly, servers`haveReadOnly
      ensures ListsChanged(false, key) && Roles(false)
      ensures master != null && oldMaster == old(master) && master == old(slaves)[key]
      ensures !conf.multiMaster && old(Valid()) ==>
                forall s :: s in slaves && s != oldMaster ==> s.haveReadOnly == s.readOnly
      ensures !conf.multiMaster && old(Valid()) && AllSucceed(env) && old(Writers()) <= {old(master)} ==>
                Writers() == (if ArbitrationLost() then {} else {master}) && forall w :: w in trace ==> w <= {master}
      ensures |trace| == 3
    {
      assert slaves[key] in slaves;
      Promote(key);
      assert !conf.multiMaster && old(Valid()) ==> oldMaster !in slaves && oldMaster != master;
      assert Writers() == old(Writers());
      trace := HandOver(false, env);
      ghost var more := Demote(env);
      trace := trace + more;
    }

    /** Phase 5 of a switchover, from a state where at most the new master accepts writes: the followers. */
    method SwitchAll(env: Env) returns (ghost trace: seq<set<ServerMonitor>>)
      requires Sound() && master != null && oldMaster != null
      modifies servers`readOnly
      ensures |trace| == |slaves|
      ensures !conf.multiMaster && Valid() && AllSucceed(env) && old(Writers()) <= {master}
              && (forall s :: s in slaves && s != oldMaster ==> s.haveReadOnly == old(s.readOnly)) ==>
                && (forall w :: w in trace ==> w <= {master} + Opened())
                && Writers() == old(Writers()) + if ArbitrationLost() then {} else Opened()
    {
      trace := SwitchSlavesToMaster(env);
      if && Valid() && !conf.multiMaster && AllSucceed(env) && old(Writers()) <= {master}
         && forall s :: s in slaves && s != oldMaster ==> s.haveReadOnly == old(s.readOnly)
      {
        SwitchedWriters(env);
      }
    }

    /** Phase 5 and the end of a switchover. */
    method FinishSwitchover(env: Env) returns (ghost trace: seq<set<ServerMonitor>>)
      requires Sound() && master != null && oldMaster != null
      modifies this`inFailover, servers`readOnly, servers`failCount
      ensures !inFailover && |trace| == |slaves| && master.failCount == 0
      ensures !conf.multiMaster && Valid() && AllSucceed(env) && old(Writers()) <= {master}
              && (forall s :: s in slaves && s != oldMaster ==> s.haveReadOnly == old(s.readOnly)) ==>
                && (forall w :: w in trace ==> w <= {master} + Opened())
                && Writers() == old(Writers()) + if ArbitrationLost() then {} else Opened()
    {
      trace := SwitchAll(env);
      assert master in servers;
      master.failCount := 0;
      inFailover := false;
    }

    /** Phases after the election, on a switchover. */
    method CompleteSwitchover(key: nat, env: Env) returns (ghost trace: seq<set<ServerMonitor>>)
      requires Sound() && key < |slaves| && master != null
      requires forall s :: s in slaves ==> s.haveReadOnly == s.readOnly
      modifies this`slaves, this`master, this`oldMaster, this`inFailover, servers
      ensures ListsChanged(false, key) && Roles(false)
      ensures master != null && oldMaster == old(master) && master == old(slaves)[key] && !inFailover
      ensures master.failCount == 0
      ensures !conf.multiMaster && old(Valid()) && AllSucceed(env) && old(Writers()) <= {old(master)} ==>
                && Guarded(trace)
                && Writers() == if ArbitrationLost() then {} else {master} + Opened()
    {
      trace := Exchange(key, env);
      ghost var more := FinishSwitchover(env);
      trace := trace + more;
    }

    /** Phases after the election, on a failover: the new master is opened for writes, and with ReadOnly on its
        followers are closed. */
    method CompleteFailover(key: nat, env: Env)
      requires Sound() && key < |slaves| && master != null
      requires forall s :: s in slaves ==> s.haveReadOnly == s.readOnly
      modifies this`slaves, this`master, this`oldMaster, this`failoverCtr, this`failoverTs, this`inFailover, servers
      ensures ListsChanged(true, key) && Roles(true)
      ensures master != null && oldMaster == old(master) && master == old(slaves)[key] && !inFailover
      ensures master.failCount == 0
      ensures failoverCtr == old(failoverCtr) + 1 && failoverTs == env.doneAt
      ensures old(Valid()) && !conf.multiMaster ==> FailedOver(env)
    {
      assert slaves[key] in slaves;
      Promote(key);
      OpenAndSwitch(env);
      master.failCount := 0;
      failoverCtr := failoverCtr + 1;
      failoverTs := env.doneAt;
      inFailover := false;
    }

    /** Phases 3 and 5 of a failover. */
    method OpenAndSwitch(env: Env)
      requires Sound() && master != null && oldMaster != null && oldMaster in servers
      requires master.haveReadOnly == master.readOnly && forall s :: s in slaves ==> s.haveReadOnly == s.readOnly
      modifies servers`readOnly, servers`haveReadOnly
      ensures Valid() && !conf.multiMaster && oldMaster !in slaves && oldMaster != master ==> FailedOver(env)
    {
      ghost var trace := HandOver(true, env);
      label before: trace := SwitchSlavesToMaster(env);
      if Valid() && !conf.multiMaster && oldMaster !in slaves && oldMaster != master {
        assert master.readOnly == old@before(master.readOnly);
        forall s | s in slaves ensures s.url != oldMaster.url {
          assert s in servers;
        }
      }
    }

    /** The state of neither a wsrep node nor a master. */
    predicate Ordinary(state: ServerState) {
      state != Wsrep && state != WsrepDonor && state != WsrepLate && state != Master
    }

    /** Who accepts writes after a failover: the new master if the statement went through and arbitration is not lost,
        and, with ReadOnly on, none of the followers that are re-pointed. */
    ghost predicate FailedOver(env: Env)
      reads this, master, servers, slaves
    {
      && (master != null && env.succeeds(OpenNew) && !(opts.arbitration && isFailedArbitrator) ==> !master.readOnly)
      && (AllSucceed(env) && opts.readOnly && !opts.mxsBinlogOn && !opts.multiMasterGrouprep ==>
            forall s :: s in slaves && Ordinary(s.state) && !s.ignoredRO ==> s.readOnly)
    }

    // ---- The whole call ----

    ghost function Counter(): FailoverGate.Gate
      reads this`failoverCtr, this`failoverTs
    {
      FailoverGate.Gate(failoverCtr, failoverTs)
    }

    /** A switchover needs a reachable master without long-running writes or transactions. */
    predicate CanSwitch(env: Env)
      reads this
    {
      master != null && env.connected && env.longWrites == 0 && env.flushedInTime
    }

    /** What either election promises. */
    ghost predicate Picked(v: View, l: seq<Server>, fail: bool, key: int)
      requires !fail ==> v.master.Some?
    {
      if fail then FailoverElection.FailoverPick(v, l, key) else SwitchoverElection.SwitchoverPick(v, l, key)
    }

    /** Election on a snapshot, as a failover or a switchover does it. The candidate of a failover is
        checked once more afterwards; in an unchanged snapshot that cannot cancel. */
    method Elect(v: View, l: seq<Server>, fail: bool) returns (key: int)
      requires !v.wsrepTopology && (!fail ==> v.master.Some?)
      ensures -1 <= key < |l| && Picked(v, l, fail, key)
      ensures fail ==> (key != -1 <==> SomeEligible(v, l))
      ensures key >= 0 ==> v.master.Some? && (fail ==> IsSlaveElectable(v, l[key]))
    {
      if fail {
        key := FailoverElection.ElectFailoverCandidate(v, l);
      } else {
        key := SwitchoverElection.ElectSwitchoverCandidate(v, l);
      }
    }

    /** Phase 1 up to the election; without a candidate the call is over. */
    method Prepare(fail: bool) returns (key: int)
      requires Sound() && !inFailover && (!fail ==> master != null)
      modifies this`inFailover, servers`haveReadOnly
      ensures Writers() == old(Writers()) && Untouched()
      ensures inFailover == (key != -1)
      ensures -1 <= key < |slaves| && Picked(old(Now()), old(Infos(slaves)), fail, key)
      ensures fail ==> (key != -1 <==> old(Electable()))
      ensures key >= 0 ==> master != null
      ensures forall s :: s in slaves ==> s.haveReadOnly == s.readOnly
    {
      var v, l := Now(), Infos(slaves);
      inFailover := true;
      RefreshSlaves();
      key := Elect(v, l, fail);
      inFailover := key != -1;
    }

    /** The leader and the followers before and after the call, and the election in between. */
    twostate predicate Changed(fail: bool, key: int)
      reads this, servers, vmaster
      requires !fail ==> old(master) != null
    {
      && old(master) != null && master != null && oldMaster == old(master)
      && 0 <= key < |old(slaves)| && master == old(slaves)[key]
      && Picked(old(Now()), old(Infos(slaves)), fail, key)
      && ListsChanged(fail, key) && Roles(fail) && master.failCount == 0
    }

    ghost predicate SomeEligible(v: View, l: seq<Server>) {
      exists i :: 0 <= i < |l| && FailoverElection.Eligible(v, l, i)
    }

    /** Somebody can be elected among the followers. */
    ghost predicate Electable()
      reads this, master, vmaster, slaves
    {
      SomeEligible(Now(), Infos(slaves))
    }

    method RunFailover(env: Env) returns (ok: bool, ghost key: int)
      requires Sound() && !inFailover
      modifies this`slaves, this`master, this`oldMaster, this`failoverCtr, this`failoverTs, this`inFailover, servers
      ensures Sound() && !inFailover
      ensures !ok ==> Untouched() && Picked(old(Now()), old(Infos(slaves)), true, -1)
      ensures ok ==> Changed(true, key)
      ensures ok <==> old(Electable())
      ensures ok ==> failoverCtr == old(failoverCtr) + 1 && failoverTs == env.doneAt
      ensures ok && old(Valid()) && !conf.multiMaster ==> FailedOver(env)
    {
      var elected := Prepare(true);
      key := elected;
      if elected == -1 {
        return false, -1;
      }
      CompleteFailover(elected, env);
      ok := true;
    }

    method RunSwitchover(env: Env) returns (ok: bool, ghost key: int, ghost trace: seq<set<ServerMonitor>>)
      requires Sound() && !inFailover && master != null
      modifies this`slaves, this`master, this`oldMaster, this`inFailover, servers
      ensures Sound() && !inFailover
      ensures !ok ==> Untouched() && Picked(old(Now()), old(Infos(slaves)), false, -1)
      ensures ok ==> Changed(false, key)
      ensures ok ==> !conf.multiMaster && old(Valid()) && AllSucceed(env) && old(Writers()) <= {old(master)} ==>
                && Guarded(trace)
                && Writers() == if ArbitrationLost() then {} else {master} + Opened()
    {
      var elected := Prepare(false);
      key, trace := elected, [];
      if elected == -1 {
        return false, -1, [];
      }
      trace := CompleteSwitchover(elected, env);
      ok := true;
    }

    /** MasterFailover outside the ring, wsrep and group-replication topologies. A refused call
        changes nothing; a completed one promotes the elected follower. A call that may start is
        refused only when the election finds nobody. */
    method MasterFailover(fail: bool, env: Env) returns (ok: bool, ghost key: int, ghost trace: seq<set<ServerMonitor>>)
      requires Sound()
      modifies this`slaves, this`master, this`oldMaster, this`failoverCtr, this`failoverTs, this`inFailover, servers
      ensures Sound() && inFailover == old(inFailover)
      ensures !ok || (fail && opts.multiMasterGrouprep) ==> Untouched()
      ensures ok && !(fail && opts.multiMasterGrouprep) ==> (!fail ==> old(master) != null) && Changed(fail, key)
      ensures ok ==> !old(inFailover) && (fail || old(CanSwitch(env)))
      ensures fail && !old(inFailover) && !opts.multiMasterGrouprep ==> (ok <==> old(Electable()))
      ensures !ok && !old(inFailover) && (fail || old(CanSwitch(env))) ==>
                Picked(old(Now()), old(Infos(slaves)), fail, -1)
      ensures Counter() == if ok && fail && !opts.multiMasterGrouprep
                           then FailoverGate.Gate(old(failoverCtr) + 1, env.doneAt)
                           else old(Counter())
      ensures ok && !fail && !conf.multiMaster && old(Valid()) && AllSucceed(env) && old(Writers()) <= {old(master)} ==>
                && Guarded(trace)
                && Writers() == if ArbitrationLost() then {} else {master} + Opened()
      ensures !fail && (old(master) == null || !env.connected || env.longWrites > 0 || !env.flushedInTime) ==> !ok
      ensures ok && !fail && !conf.multiMaster && old(Valid()) && AllSucceed(env) && old(Writers()) <= {old(master)}
              && opts.readOnly && !opts.mxsBinlogOn && !(opts.arbitration && isFailedArbitrator)
              && (forall s :: s in old(slaves) ==> !s.ignoredRO)
              ==> Writers() == {master} && forall w :: w in trace ==> w <= {master}
      ensures ok && !fail && !conf.multiMaster && old(Valid()) && AllSucceed(env) && old(Writers()) <= {old(master)}
              && !opts.readOnly && !opts.mxsBinlogOn && !opts.multiMasterGrouprep
              && !(opts.arbitration && isFailedArbitrator)
              ==> forall s :: s in slaves && s != oldMaster && Ordinary(s.state) ==> !s.readOnly
      ensures ok && fail && !opts.multiMasterGrouprep && old(Valid()) && !conf.multiMaster ==> FailedOver(env)
    {
      trace, key := [], -1;
      if inFailover || (!fail && !CanSwitch(env)) {
        return false, -1, [];
      }
      if fail {
        if opts.multiMasterGrouprep {
          return true, -1, [];
        }
        ok, key := RunFailover(env);
      } else {
        ok, key, trace := RunSwitchover(env);
        if ok && !conf.multiMaster && old(Valid()) {
          OldSlaves(key);
          WhoIsOpened();
        }
      }
    }

    /** The followers after a switchover are the old ones and the old master. */
    twostate lemma OldSlaves(key: nat)
      requires 0 <= key < |old(slaves)| && old(Valid()) && !conf.multiMaster && ListsChanged(false, key)
      requires oldMaster == old(master) && oldMaster != null
      ensures forall s :: s in slaves ==> s in old(slaves) || s == oldMaster
    {
    }

    /** Phase 5 in terms of the settings: with ReadOnly on only read-only-ignored followers may be opened, with
        ReadOnly off every ordinary follower is. */
    lemma WhoIsOpened()
      requires Valid() && master != null && oldMaster != null && !conf.multiMaster && oldMaster in servers
      ensures opts.readOnly && !opts.mxsBinlogOn && (forall s :: s in slaves && s != oldMaster ==> !s.ignoredRO) ==>
                Opened() == {}
      ensures !opts.readOnly && !opts.mxsBinlogOn && !opts.multiMasterGrouprep ==>
                forall s :: s in slaves && s != oldMaster && Ordinary(s.state) ==> s in Opened()
    {
      forall s | s in slaves && s != oldMaster ensures s.url != oldMaster.url {
        assert s in servers;
      }
    }

    /** With one writer to start from and every statement succeeding, a completed switchover ends with exactly the new
        master writable if and only if arbitration is not lost and, unless a MaxScale binlog server or group
        replication takes care of the followers, every ordinary follower but the old master is to be read-only. */
    lemma SingleWriterIff()
      requires Valid() && master != null && oldMaster != null && oldMaster in servers && !conf.multiMaster
      requires Writers() == if ArbitrationLost() then {} else {master} + Opened()
      ensures Writers() == {master} <==>
              && !(opts.arbitration && isFailedArbitrator)
              && (opts.mxsBinlogOn || opts.multiMasterGrouprep
                  || forall s :: s in slaves && s != oldMaster && Ordinary(s.state) ==> opts.readOnly && !s.ignoredRO)
    {
      forall s | s in slaves
        ensures s in Opened() <==> && !opts.mxsBinlogOn && !opts.multiMasterGrouprep && s != oldMaster
                                   && Ordinary(s.state) && !(opts.readOnly && !s.ignoredRO)
      {
        assert s in servers;
      }
      assert master !in Opened();
      if Writers() == {master} {
        assert Opened() == {};
      }
      if s :| s in slaves && s in Opened() {
        assert s in {master} + Opened();
      }
    }

    ghost predicate Found(signals: Signals)
      reads this, master, vmaster, slaves
    {
      opts.activePassive || if opts.multiMasterGrouprep then signals.groupCandidate else Electable()
    }

    method IsFoundCandidateMaster(signals: Signals) returns (found: bool)
      ensures found == Found(signals)
    {
      if opts.activePassive {
        return true;
      }
      if opts.multiMasterGrouprep {
        return signals.groupCandidate;
      }
      var key := FailoverElection.ElectFailoverCandidate(Now(), Infos(slaves));
      found := key != -1;
    }

    /** No sign of life of the master, and no sign of inconsistent followers. */
    ghost predicate Quiet(signals: Signals) {
      && signals.noErrantTransaction && signals.sameWsrepUUID
      && !signals.externalOk && !signals.heartbeatIncreasing && !signals.maxscaleRunning
    }

    /** Everything besides the two brakes that an automatic failover waits for. */
    ghost predicate Permits(signals: Signals)
      reads this, master, vmaster, slaves
    {
      && !inFailover && !opts.interactive && Found(signals)
      && master != null && master.state.Failed? && master.failCount >= opts.maxFail
      && (opts.arbitration ==> signals.arbitratorSaysWinner && !isFailedArbitrator)
      && signals.noErrantTransaction && signals.sameWsrepUUID
      && !signals.externalOk && !signals.heartbeatIncreasing && !signals.maxscaleRunning
    }

    /** The chain of conditions of the failure check, in its order. */
    method MayFailOver(now: int, signals: Signals) returns (go: bool)
      ensures go <==> && Permits(signals) && FailoverGate.TimeValid(opts.limits, Counter(), now)
                      && FailoverGate.LimitNotReached(opts.limits, Counter())
      ensures go <==> && Permits(signals)
                      && (opts.limits.failTime == 0 || now >= failoverTs + opts.limits.failTime)
                      && (opts.limits.failLimit == 0 || failoverCtr != opts.limits.failLimit)
    {
      if inFailover {
        return false;
      }
      var g := FailoverGate.Gate(failoverCtr, failoverTs);
      var found := IsFoundCandidateMaster(signals);
      if !(found && FailoverGate.TimeValid(opts.limits, g, now)) {
        return false;
      }
      if !(signals.noErrantTransaction && signals.sameWsrepUUID) {
        return false;
      }
      if GetMaster() == null || GetMaster().failCount < opts.maxFail {
        return false;
      }
      if opts.arbitration && !signals.arbitratorSaysWinner {
        return false;
      }
      if !FailoverGate.LimitNotReached(opts.limits, g) {
        return false;
      }
      if opts.interactive || master == null || !master.state.Failed? || ArbitrationLost() {
        return false;
      }
      go := !(signals.externalOk || signals.heartbeatIncreasing || signals.maxscaleRunning);
    }

    /** MasterFailover(true) when no leader change is under way: it completes exactly when somebody can be elected. */
    method FailOver(go: bool, ghost electable: bool, env: Env) returns (ghost key: int)
      requires Sound() && (go ==> !inFailover) && electable == (!opts.multiMasterGrouprep && Electable())
      modifies this`slaves, this`master, this`oldMaster, this`failoverCtr, this`failoverTs, this`inFailover, servers
      ensures Sound() && inFailover == old(inFailover)
      ensures if go && electable then Changed(true, key) else Untouched()
      ensures Counter() == if go && electable then FailoverGate.Gate(old(failoverCtr) + 1, env.doneAt)
                           else old(Counter())
      ensures go && electable && old(Valid()) && !conf.multiMaster ==> FailedOver(env)
    {
      key := -1;
      if go {
        ghost var trace;
        var ok;
        ok, key, trace := MasterFailover(true, env);
      }
    }

    /** The tick of a failure check, once it is known whether the check goes on to a failover. */
    lemma TickMoves(g: FailoverGate.Gate, now: int, permits: bool, electable: bool, end: int, go: bool)
      requires go <==> && permits && FailoverGate.TimeValid(opts.limits, g, now)
                       && FailoverGate.LimitNotReached(opts.limits, g)
      ensures var tick := FailoverGate.Tick(now, permits, electable, end);
              && (FailoverGate.Counts(opts.limits, g, tick) <==> go && electable)
              && FailoverGate.Step(opts.limits, g, tick)
                 == if go && electable then FailoverGate.Gate(g.ctr + 1, end) else g
    {
    }

    /** CheckFailed: one tick of the failure check moves the counter and its time stamp as one tick of the gate does.
        It fails over exactly when everything permits it, both brakes are off and somebody can be elected. */
    method CheckFailed(now: int, signals: Signals, env: Env) returns (ghost tick: FailoverGate.Event, ghost key: int)
      requires Sound()
      modifies this`slaves, this`master, this`oldMaster, this`failoverCtr, this`failoverTs, this`inFailover, servers
      ensures Sound() && inFailover == old(inFailover)
      ensures tick == FailoverGate.Tick(now, old(Permits(signals)), !opts.multiMasterGrouprep && old(Electable()),
                                        env.doneAt)
      ensures Counter() == FailoverGate.Step(opts.limits, old(Counter()), tick)
      ensures if FailoverGate.Counts(opts.limits, old(Counter()), tick) then Changed(true, key) else Untouched()
      ensures && Quiet(signals) && old(Electable()) && !old(inFailover) && !opts.multiMasterGrouprep
              && !opts.interactive && old(master) != null && old(master.state) == Failed
              && old(master.failCount) >= opts.maxFail
              && (opts.arbitration ==> signals.arbitratorSaysWinner && !old(isFailedArbitrator))
              && (opts.limits.failTime == 0 || now >= old(failoverTs) + opts.limits.failTime)
              && (opts.limits.failLimit == 0 || old(failoverCtr) < opts.limits.failLimit)
              ==> && Changed(true, key) && failoverCtr == old(failoverCtr) + 1 && failoverTs == env.doneAt
                  && (old(Valid()) && !conf.multiMaster ==> FailedOver(env))
      ensures old(master) == null || opts.interactive || !Quiet(signals) ==> Untouched()
      ensures old(master) != null && (old(master.state) != Failed || old(master.failCount) < opts.maxFail) ==>
                Untouched()
      ensures opts.arbitration && (!signals.arbitratorSaysWinner || old(isFailedArbitrator)) ==> Untouched()
      ensures opts.limits.failLimit != 0 && old(failoverCtr) == opts.limits.failLimit ==> Untouched()
      ensures opts.limits.failTime != 0 && now < old(failoverTs) + opts.limits.failTime ==> Untouched()
    {
      var go := MayFailOver(now, signals);
      ghost var g, permits, electable := Counter(), Permits(signals), !opts.multiMasterGrouprep && Electable();
      tick := FailoverGate.Tick(now, permits, electable, env.doneAt);
      TickMoves(g, now, permits, electable, env.doneAt, go);
      key := FailOver(go, electable, env);
    }

    // ---- Observing the servers ----

    /** A live server that replicates from another. */
    predicate Follows(s: ServerMonitor)
      reads s
    {
      !Down(s.state) && s.isFollower
    }

    function At(l: seq<nat>): (r: seq<ServerMonitor>)
      requires forall i :: 0 <= i < |l| ==> l[i] < |servers|
      ensures |r| == |l|
    {
      seq(|l|, i requires 0 <= i < |l| => servers[l[i]])
    }

    lemma AtAppend(l: seq<nat>, k: nat)
      requires k < |servers| && forall i :: 0 <= i < |l| ==> l[i] < |servers|
      ensures At(l + [k]) == At(l) + [servers[k]]
    {
    }

    ghost function FollowMarks(): (marks: seq<bool>)
      reads servers
      ensures |marks| == |servers|
    {
      seq(|servers|, i requires 0 <= i < |servers| reads servers => Follows(servers[i]))
    }

    /** The live followers, in the order of the servers. */
    ghost function Following(): seq<ServerMonitor>
      reads servers
    {
      At(Chosen(FollowMarks()))
    }

    function ReportMarks(ping: nat -> Report): seq<bool> {
      seq(|servers|, i requires 0 <= i < |servers| => LiveFollower(ping(i)))
    }

    /** The live followers as the reports have them. */
    function Reported(ping: nat -> Report): seq<ServerMonitor> { At(Chosen(ReportMarks(ping))) }

    lemma ReportedIsFollowing(ping: nat -> Report)
      requires forall i :: 0 <= i < |servers| ==> servers[i].Shows(ping(i))
      ensures Following() == Reported(ping)
    {
      assert FollowMarks() == ReportMarks(ping);
    }

    lemma AtOnce(marks: seq<bool>)
      requires |marks| == |servers| && UniqueUrls()
      ensures Distinct(At(Chosen(marks)))
    {
      ChosenOnce(marks);
      var l, r := Chosen(marks), At(Chosen(marks));
      forall i, j | 0 <= i < j < |r| ensures r[i] != r[j] {
        assert servers[l[i]].url != servers[l[j]].url;
      }
    }

    lemma AtMember(marks: seq<bool>, k: nat)
      requires |marks| == |servers| && UniqueUrls() && k < |servers|
      ensures servers[k] in At(Chosen(marks)) <==> marks[k]
    {
      ChosenOnce(marks);
      var l, r := Chosen(marks), At(Chosen(marks));
      if marks[k] {
        assert k in l;
        var i :| 0 <= i < |l| && l[i] == k;
        assert r[i] == servers[k];
      }
      if servers[k] in r {
        var i :| 0 <= i < |r| && r[i] == servers[k];
        assert l[i] in l && servers[l[i]].url == servers[k].url;
      }
    }

    method PingServers(ping: nat -> Report)
      requires Sound()
      modifies servers
      ensures forall i :: 0 <= i < |servers| ==> servers[i].Shows(ping(i))
      ensures Following() == Reported(ping)
    {
      for k := 0 to |servers|
        invariant forall i :: 0 <= i < k ==> servers[i].Shows(ping(i))
      {
        assert forall i :: 0 <= i < k ==> servers[i] != servers[k];
        servers[k].Ping(ping(k));
      }
      ReportedIsFollowing(ping);
    }

    /** The master is unknown or failed, and so is every follower that is not ignored. */
    ghost predicate AllDown()
      reads this, master, vmaster, slaves
    {
      && (GetMaster() == null || GetMaster().state == Failed)
      && forall s :: s in slaves ==> s.state == Failed || s.state == ErrorAuth || s.info.ignored
    }

    /** A cluster that is all down forgets its master, unless failover is allowed to be unsafe. */
    method TopologyClusterDown(discovered: bool)
      modifies this`master
      ensures master == if discovered && !conf.failRestartUnsafe && old(AllDown()) then null else old(master)
    {
      if GetMaster() != null && !GetMaster().state.Failed? {
        return;
      }
      var allDown := true;
      for i := 0 to |slaves|
        invariant allDown <==> forall k :: 0 <= k < i ==>
                    slaves[k].state == Failed || slaves[k].state == ErrorAuth || slaves[k].info.ignored
      {
        if !slaves[i].state.Failed? && !slaves[i].state.ErrorAuth? && !slaves[i].info.ignored {
          allDown := false;
        }
      }
      if allDown && discovered && !conf.failRestartUnsafe {
        master := null;
      }
    }

    /** A live server that follows nobody and leads: a group master, one that others read from, or the known master.
        */
    ghost predicate Leading(s: ServerMonitor)
      reads s
    {
      && s.state != Failed && s.state != ErrorAuth && !s.isFollower
      && (s.isGroupMaster || s.binlogDumpThreads > 0 || s.state == Master)
    }

    /** Discovery takes the server for the master: it leads and, unless it is a group master, an active monitor of a
        master-slave topology does not know another one. */
    ghost predicate TakesFor(s: ServerMonitor, active: bool)
      reads this, s
    {
      && Leading(s)
      && (s.isGroupMaster || !(active && opts.masterSlave && GetMaster() != null && GetMaster().url != s.url))
    }

    /** Discovery may open the server if it takes it for the master. */
    predicate MayOpen(s: ServerMonitor)
      reads this`isFailedArbitrator, s
    {
      s.haveReadOnly && !ArbitrationLost() && (s.isGroupMaster || !s.info.isRelay)
    }

    /** The rebuild of the follower list by topology discovery: the live followers in order, and a master that, if it
        is new, is live and follows nobody. */
    method DiscoverSlaves(active: bool)
      requires Sound()
      modifies this`slaves, this`master, this`vmaster
      modifies servers`state, servers`haveNoMasterOnStart, servers`readOnly
      ensures Sound() && Distinct(slaves) && slaves == old(Following())
      ensures old(master) == null && old(vmaster) == null ==>
                (master == null <==> forall s :: s in servers ==> !old(Leading(s)))
      ensures var m := master; m != old(master) ==> m != null && m !in slaves && !Down(old(m.state))
      ensures active && opts.masterSlave && old(master) != null && (forall s :: s in servers ==> !s.isGroupMaster)
              ==> master == old(master)
      ensures Valid() <==> conf.multiMaster || master == null || !(master == old(master) && old(Follows(master)))
    {
      ghost var marks, leads := FollowMarks(), LeadMarks();
      ghost var at := RebuildList(active, marks, leads);
      AtOnce(marks);
      if master != null {
        ghost var k :| 0 <= k < |servers| && servers[k] == master;
        AtMember(marks, k);
      }
    }

    ghost function LeadMarks(): (leads: seq<bool>)
      reads servers
      ensures |leads| == |servers|
      ensures forall i :: 0 <= i < |servers| ==> leads[i] == Leading(servers[i])
    {
      seq(|servers|, i requires 0 <= i < |servers| reads servers => Leading(servers[i]))
    }

    lemma ListStep(marks: seq<bool>, k: nat)
      requires k < |marks| == |servers|
      ensures At(Chosen(marks[..k + 1])) == At(Chosen(marks[..k])) + if marks[k] then [servers[k]] else []
    {
      ChosenStep(marks, k);
      AtAppend(Chosen(marks[..k]), k);
    }

    /** The loop over the servers; `at` is the place of the server last taken for the master. */
    method RebuildList(active: bool, ghost marks: seq<bool>, ghost leads: seq<bool>) returns (ghost at: nat)
      requires Sound() && |marks| == |leads| == |servers|
      requires forall i :: 0 <= i < |servers| ==> marks[i] == Follows(servers[i]) && leads[i] == Leading(servers[i])
      modifies this`slaves, this`master, this`vmaster
      modifies servers`state, servers`haveNoMasterOnStart, servers`readOnly
      ensures slaves == At(Chosen(marks)) && (master != null ==> master in servers)
      ensures old(master) == null && old(vmaster) == null ==>
                (master == null <==> forall i :: 0 <= i < |servers| ==> !leads[i])
      ensures master != old(master) ==> at < |servers| && master == servers[at] && leads[at]
      ensures active && opts.masterSlave && old(master) != null && (forall s :: s in servers ==> !s.isGroupMaster)
              ==> master == old(master)
    {
      slaves, at := [], 0;
      ghost var keeps := active && opts.masterSlave && master != null && forall s :: s in servers ==> !s.isGroupMaster;
      ghost var unknown := master == null && vmaster == null;
      for k := 0 to |servers|
        invariant Sound() && slaves == At(Chosen(marks[..k]))
        invariant forall i :: k <= i < |servers| ==> marks[i] == Follows(servers[i]) && leads[i] == Leading(servers[i])
        invariant master != old(master) ==> at < |servers| && master == servers[at] && leads[at]
        invariant keeps ==> master == old(master)
        invariant unknown ==> (master == null <==> forall i :: 0 <= i < k ==> !leads[i])
        invariant unknown && master == null ==> vmaster == null
      {
        at := if TakesFor(servers[k], active) then k else at;
        DiscoverNext(k, active, marks);
      }
      assert marks[..|servers|] == marks;
    }

    /** One turn of the loop, by place. */
    method DiscoverNext(k: nat, active: bool, ghost marks: seq<bool>)
      requires Sound() && k < |servers| == |marks| && marks[k] == Follows(servers[k])
      requires slaves == At(Chosen(marks[..k]))
      modifies this`slaves, this`master, this`vmaster
      modifies servers`state, servers`haveNoMasterOnStart, servers`readOnly
      ensures Sound() && slaves == At(Chosen(marks[..k + 1]))
      ensures master == if old(TakesFor(servers[k], active)) then servers[k] else old(master)
      ensures old(TakesFor(servers[k], active)) ==> old(Leading(servers[k]))
      ensures old(master) == null && old(vmaster) == null ==>
                (master == null <==> !old(Leading(servers[k]))) && (master == null ==> vmaster == null)
      ensures active && opts.masterSlave && old(master) != null && !servers[k].isGroupMaster ==> master == old(master)
      ensures forall i :: 0 <= i < |servers| && i != k ==>
                Follows(servers[i]) == old(Follows(servers[i])) && Leading(servers[i]) == old(Leading(servers[i]))
    {
      ListStep(marks, k);
      assert forall i :: 0 <= i < |servers| && i != k ==> servers[i] != servers[k];
      DiscoverServer(servers[k], active);
    }

    /** The loop body of the rebuild, for one server: a follower is listed, and a server that becomes the master is
        opened where that is allowed. */
    method DiscoverServer(sv: ServerMonitor, active: bool)
      requires UniqueUrls() && sv in servers && (master != null ==> master in servers)
      modifies this`slaves, this`master, this`vmaster
      modifies servers`state, servers`haveNoMasterOnStart, sv`readOnly
      ensures slaves == old(slaves) + if old(Follows(sv)) then [sv] else []
      ensures master == if old(TakesFor(sv, active)) then sv else old(master)
      ensures sv.readOnly == (old(sv.readOnly) && !(old(TakesFor(sv, active)) && MayOpen(sv)))
      ensures vmaster == if old(TakesFor(sv, active)) && sv.isGroupMaster then sv else old(vmaster)
      ensures active && opts.masterSlave && old(master) != null && !sv.isGroupMaster ==> master == old(master)
      ensures forall s :: s in servers && s != sv ==> s.state == old(s.state)
    {
      if Down(sv.state) {
        return;
      }
      if sv.isFollower {
        slaves := slaves + [sv];
      } else if sv.isGroupMaster {
        vmaster := sv;
        Crown(sv, true);
      } else if sv.binlogDumpThreads == 0 && !sv.state.Master? {
        return;
      } else if active && GetMaster() != null && opts.masterSlave && sv.url != GetMaster().url {
        return;
      } else {
        Crown(sv, !sv.info.isRelay);
      }
    }

    /** Discovery settles on a master and, if asked to, opens it for writes. */
    method Crown(sv: ServerMonitor, open: bool)
      requires sv in servers
      modifies this`master, servers`state, servers`haveNoMasterOnStart, sv`readOnly
      ensures master == sv
      ensures forall s :: s in servers ==> s.state == if s == sv then Master else old(s.state)
      ensures sv.readOnly == (old(sv.readOnly) && !(sv.haveReadOnly && open && !ArbitrationLost()))
    {
      master := sv;
      SetMaster(sv);
      if sv.haveReadOnly && open {
        sv.SetReadWrite(ArbitrationLost(), true);
      }
    }

    /** TopologyDiscover: a single server is the master; otherwise the followers are rebuilt, and the later steps may
        settle on another master. */
    method TopologyDiscover(active: bool, discovered: bool, settles: Settlement)
      requires Sound()
      modifies this`slaves, this`master, this`vmaster
      modifies servers`state, servers`haveNoMasterOnStart, servers`readOnly
      ensures Sound()
      ensures |servers| == 1 ==> master == servers[0] && slaves == old(slaves)
      ensures |servers| != 1 ==> slaves == old(Following()) && Distinct(slaves)
      ensures |servers| != 1 && !settles.AsFound? && settles.key < |servers| ==> master == servers[settles.key]
      ensures |servers| != 1 && settles.AsFound? && old(vmaster) == null
              && (forall s :: s in servers ==> old(s.state) == Failed)
              ==> master == if discovered && !conf.failRestartUnsafe then null else old(master)
      ensures |servers| != 1 && opts.masterSlave && master != null ==> vmaster == null
    {
      if |servers| == 1 {
        master := servers[0];
        return;
      }
      TopologyClusterDown(discovered);
      DiscoverSlaves(active);
      match settles {
        case AsFound =>
        case Assumed(key) =>
          if key < |servers| {
            master := servers[key];
          }
        case Crowned(key, open) =>
          if key < |servers| {
            Crown(servers[key], open);
          }
      }
      if opts.masterSlave && master != null {
        vmaster := null;
      }
    }

    // ---- Whole runs of the monitor ----

    /** The gate's view of an event: the same clocks. */
    predicate Mirrors(event: Event, e: FailoverGate.Event) {
      match event
      case SwitchSignal(_, now, env) => e == FailoverGate.Switchover(now, env.doneAt)
      case Observe(now, _, _, _, _, _) => e == FailoverGate.Observation(now, now)
      case MonitorTick(now, _, env) => e.Tick? && e.now == now && e.end == env.doneAt
      case ManualFailover(now, env) => e.Manual? && e.now == now && e.end == env.doneAt
      case ResetFailoverCtr(now) => e == FailoverGate.ResetCounter(now, now)
    }

    /** The lists before and after an event: an observation takes the followers from the reports, anything else is at
        most one legal change of them. `skips` says that discovery is skipped because a leader change is under way. */
    ghost predicate Connects(skips: bool, event: Event, m: Members<ServerMonitor?>, c: Change,
                             m': Members<ServerMonitor?>)
    {
      if event.Observe? then c.Refused? && (!skips && |servers| != 1 ==> m'.slaves == Reported(event.ping))
      else !conf.multiMaster && Disjoint(m) ==> Legal(m, c) && m' == Apply(m, c)
    }

    lemma ValidIsDisjoint()
      requires Sound() && !conf.multiMaster
      ensures Valid() <==> Disjoint(Lists())
    {
      var all := [Lists().master] + Lists().slaves;
      assert forall i :: 0 <= i < |slaves| ==> all[i + 1] == slaves[i];
      if Disjoint(Lists()) {
        forall i, j | 0 <= i < j < |slaves| ensures slaves[i] != slaves[j] {
          assert all[i + 1] != all[j + 1];
        }
        forall i | 0 <= i < |slaves| ensures slaves[i] != master {
          assert all[0] != all[i + 1];
        }
      }
    }

    /** What handling one event promises. */
    twostate predicate Handled(event: Event, e: FailoverGate.Event, c: Change)
      reads this
    {
      && Sound() && inFailover == old(inFailover)
      && Mirrors(event, e)
      && Counter() == FailoverGate.Step(opts.limits, old(Counter()), e)
      && (c.Failover? <==> FailoverGate.Counts(opts.limits, old(Counter()), e))
      && Connects(inFailover, event, old(Lists()), c, Lists())
    }

    /** What is done is what is due: a signal switches over if and only if the monitor is active, a switchover may
        start and its election finds somebody; a check ticks as the servers stand; an operator's failover completes if
        and only if none is under way and somebody can be elected. */
    twostate predicate Due(event: Event, e: FailoverGate.Event, c: Change)
      reads this, servers
    {
      match event
      case SwitchSignal(active, _, env) =>
        c.Switchover? <==> && active && !old(inFailover) && old(master) != null
                           && env.connected && env.longWrites == 0 && env.flushedInTime
                           && !SwitchoverElection.SwitchoverPick(old(Now()), old(Infos(slaves)), -1)
      case MonitorTick(_, signals, _) =>
        e.Tick? && e.others == old(Permits(signals)) && e.completed == (!opts.multiMasterGrouprep && old(Electable()))
      case ManualFailover(_, _) =>
        e.Manual? && e.completed == (!old(inFailover) && !opts.multiMasterGrouprep && old(Electable()))
      case _ => true
    }

    method HandleSwitch(event: Event) returns (ghost e: FailoverGate.Event, ghost c: Change)
      requires Sound() && event.SwitchSignal?
      modifies this, servers
      ensures Handled(event, e, c) && Due(event, e, c)
    {
      if !conf.multiMaster {
        ValidIsDisjoint();
      }
      e, c := FailoverGate.Switchover(event.now, event.env.doneAt), Refused;
      if event.active {
        ghost var key, trace;
        var ok;
        ok, key, trace := MasterFailover(false, event.env);
        if ok {
          c := Switchover(key);
        }
      }
    }

    /** Ping every server and, unless a leader change is under way, discover the topology anew. */
    method ObserveServers(event: Event)
      requires Sound() && event.Observe?
      modifies this`slaves, this`master, this`vmaster, this`isFailedArbitrator, servers
      ensures Sound() && isFailedArbitrator == event.failedArbitrator
      ensures !inFailover && |servers| != 1 ==> slaves == Reported(event.ping)
    {
      PingServers(event.ping);
      isFailedArbitrator := event.failedArbitrator;
      if !inFailover {
        TopologyDiscover(event.active, event.discovered, event.settles);
      }
    }

    method HandleObservation(event: Event) returns (ghost e: FailoverGate.Event, ghost c: Change)
      requires Sound() && event.Observe?
      modifies this, servers
      ensures Handled(event, e, c)
    {
      e, c := FailoverGate.Observation(event.now, event.now), Refused;
      ObserveServers(event);
    }

    method HandleTick(event: Event) returns (ghost e: FailoverGate.Event, ghost c: Change)
      requires Sound() && event.MonitorTick?
      modifies this, servers
      ensures Handled(event, e, c) && Due(event, e, c)
    {
      if !conf.multiMaster {
        ValidIsDisjoint();
      }
      ghost var key;
      e, key := CheckFailed(event.now, event.signals, event.env);
      c := if FailoverGate.Counts(opts.limits, old(Counter()), e) then Failover(key) else Refused;
    }

    method HandleManual(event: Event) returns (ghost e: FailoverGate.Event, ghost c: Change)
      requires Sound() && event.ManualFailover?
      modifies this, servers
      ensures Handled(event, e, c) && Due(event, e, c)
    {
      if !conf.multiMaster {
        ValidIsDisjoint();
      }
      ghost var key, trace;
      var ok;
      ok, key, trace := MasterFailover(true, event.env);
      e := FailoverGate.Manual(event.now, ok && !opts.multiMasterGrouprep, event.env.doneAt);
      c := if e.completed then Failover(key) else Refused;
    }

    /** One event of the monitor. */
    method Handle(event: Event) returns (ghost e: FailoverGate.Event, ghost c: Change)
      requires Sound()
      modifies this, servers
      ensures Handled(event, e, c) && Due(event, e, c)
    {
      match event
      case SwitchSignal(_, _, _) => e, c := HandleSwitch(event);
      case Observe(_, _, _, _, _, _) => e, c := HandleObservation(event);
      case MonitorTick(_, _, _) => e, c := HandleTick(event);
      case ManualFailover(_, _) => e, c := HandleManual(event);
      case ResetFailoverCtr(now) =>
        e, c := FailoverGate.ResetCounter(now, now), Refused;
        failoverCtr, failoverTs := 0, 0;
    }

    /** A history of the monitor from the given counter: each event, what the gate saw of it, the change it made and
        the lists in between. */
    ghost predicate IsHistory(skips: bool, g: FailoverGate.Gate, h: History) {
      && |h.es| == |h.cs| == |h.events| && |h.ms| == |h.events| + 1
      && forall i :: 0 <= i < |h.events| ==> Explained(skips, g, h, i)
    }

    ghost predicate Explained(skips: bool, g: FailoverGate.Gate, h: History, i: nat)
      requires i < |h.es| == |h.cs| == |h.events| && |h.ms| == |h.events| + 1
    {
      && Mirrors(h.events[i], h.es[i])
      && (h.cs[i].Failover? <==> FailoverGate.Counts(opts.limits, FailoverGate.Run(opts.limits, g, h.es[..i]), h.es[i]))
      && Connects(skips, h.events[i], h.ms[i], h.cs[i], h.ms[i + 1])
    }

    function Extended(h: History, event: Event, e: FailoverGate.Event, c: Change, m: Members<ServerMonitor?>): History {
      History(h.events + [event], h.es + [e], h.cs + [c], h.ms + [m])
    }

    lemma HistoryAppend(skips: bool, g: FailoverGate.Gate, h: History, event: Event, e: FailoverGate.Event, c: Change,
                        m: Members<ServerMonitor?>)
      requires IsHistory(skips, g, h) && Mirrors(event, e)
      requires c.Failover? <==> FailoverGate.Counts(opts.limits, FailoverGate.Run(opts.limits, g, h.es), e)
      requires Connects(skips, event, h.ms[|h.events|], c, m)
      ensures IsHistory(skips, g, Extended(h, event, e, c, m))
    {
      var h' := Extended(h, event, e, c, m);
      forall i | 0 <= i < |h'.events| ensures Explained(skips, g, h', i) {
        if i < |h.events| {
          assert Explained(skips, g, h, i);
          assert h'.es[..i] == h.es[..i];
        } else {
          assert h'.es[..i] == h.es;
        }
      }
    }

    /** The monitor over any sequence of events: it leaves a history that explains its counter and its lists. */
    method Run(events: seq<Event>) returns (ghost h: History)
      requires Sound()
      modifies this, servers
      ensures Sound() && inFailover == old(inFailover)
      ensures h.events == events && IsHistory(inFailover, old(Counter()), h)
      ensures h.ms[0] == old(Lists()) && h.ms[|events|] == Lists()
      ensures Counter() == FailoverGate.Run(opts.limits, old(Counter()), h.es)
    {
      h := History([], [], [], [Lists()]);
      for i := 0 to |events|
        invariant Sound() && inFailover == old(inFailover) && h.events == events[..i]
        invariant IsHistory(inFailover, old(Counter()), h)
        invariant h.ms[0] == old(Lists()) && h.ms[i] == Lists()
        invariant Counter() == FailoverGate.Run(opts.limits, old(Counter()), h.es)
      {
        ghost var e, c := Handle(events[i]);
        HistoryAppend(inFailover, old(Counter()), h, events[i], e, c, Lists());
        FailoverGate.RunAppend(opts.limits, old(Counter()), h.es, e);
        h := Extended(h, events[i], e, c, Lists());
        assert events[..i + 1] == events[..i] + [events[i]];
      }
      assert events[..|events|] == events;
    }

    /** Whatever fails, returns and is observed in between: the failover counter stays at or below its limit all along
        if and only if no operator's failover completes while it stands at the limit. */
    lemma HistoryBounded(skips: bool, g: FailoverGate.Gate, h: History)
      requires IsHistory(skips, g, h) && opts.limits.failLimit > 0 && g.ctr <= opts.limits.failLimit
      ensures (forall n :: 0 <= n <= |h.es| ==> FailoverGate.Bounded(opts.limits, g, h.es, n))
              <==> forall i :: 0 <= i < |h.events| ==>
                     !(h.events[i].ManualFailover? && h.cs[i].Failover?
                       && FailoverGate.Run(opts.limits, g, h.es[..i]).ctr == opts.limits.failLimit)
    {
      FailoverGate.BoundedIff(opts.limits, g, h.es);
      forall i | 0 <= i < |h.events|
        ensures FailoverGate.Lifts(opts.limits, g, h.es, i)
                <==> && h.events[i].ManualFailover? && h.cs[i].Failover?
                     && FailoverGate.Run(opts.limits, g, h.es[..i]).ctr == opts.limits.failLimit
      {
        assert Explained(skips, g, h, i);
      }
    }

    /** When an event starts and when it ends. */
    function Start(event: Event): int { event.now }

    function End(event: Event): int {
      match event
      case SwitchSignal(_, _, env) => env.doneAt
      case MonitorTick(_, _, env) => env.doneAt
      case ManualFailover(_, env) => env.doneAt
      case _ => event.now
    }

    /** With a clock that does not run backwards and no reset, an automatic failover starts at least FailTime after
        any earlier failover completed. */
    lemma HistorySpaced(skips: bool, g: FailoverGate.Gate, h: History, i: nat, j: nat)
      requires IsHistory(skips, g, h) && i < j < |h.events|
      requires forall k :: 0 <= k < |h.events| ==>
                 Start(h.events[k]) <= End(h.events[k]) && !h.events[k].ResetFailoverCtr?
      requires forall k, l :: 0 <= k < l < |h.events| ==> End(h.events[k]) <= Start(h.events[l])
      requires h.cs[i].Failover? && h.cs[j].Failover? && h.events[j].MonitorTick?
      ensures Start(h.events[j]) >= End(h.events[i]) + opts.limits.failTime
    {
      forall k | 0 <= k < |h.events|
        ensures h.es[k].now == Start(h.events[k]) && h.es[k].end == End(h.events[k]) && !h.es[k].ResetCounter?
      {
        assert Explained(skips, g, h, k);
      }
      assert Explained(skips, g, h, i) && Explained(skips, g, h, j);
      FailoverGate.FailoversSpaced(opts.limits, g, h.es, i, j);
    }

    /** Between two observations nobody joins and nobody is lost but the masters that were failed over, and the master
        stays out of its followers. */
    lemma HistoryConserves(skips: bool, g: FailoverGate.Gate, h: History, a: nat, b: nat)
      requires IsHistory(skips, g, h) && a <= b <= |h.events| && !conf.multiMaster && Disjoint(h.ms[a])
      requires forall i :: a <= i < b ==> !h.events[i].Observe?
      ensures LegalRun(h.ms[a], h.cs[a..b]) && h.ms[b] == Membership.Run(h.ms[a], h.cs[a..b])
      ensures Everyone(h.ms[b]) + Lost(h.ms[a], h.cs[a..b]) == Everyone(h.ms[a])
      ensures Disjoint(h.ms[b]) && h.ms[b].master !in h.ms[b].slaves
    {
      SegmentRuns(skips, g, h, a, b);
      RunConserves(h.ms[a], h.cs[a..b]);
      RunKeepsDisjoint(h.ms[a], h.cs[a..b]);
    }

    lemma {:induction false} SegmentRuns(skips: bool, g: FailoverGate.Gate, h: History, a: nat, b: nat)
      requires IsHistory(skips, g, h) && a <= b <= |h.events| && !conf.multiMaster && Disjoint(h.ms[a])
      requires forall i :: a <= i < b ==> !h.events[i].Observe?
      ensures LegalRun(h.ms[a], h.cs[a..b]) && h.ms[b] == Membership.Run(h.ms[a], h.cs[a..b])
      decreases b
    {
      if a < b {
        SegmentRuns(skips, g, h, a, b - 1);
        RunKeepsDisjoint(h.ms[a], h.cs[a..b - 1]);
        assert Explained(skips, g, h, b - 1);
        Membership.RunAppend(h.ms[a], h.cs[a..b - 1], h.cs[b - 1]);
        assert h.cs[a..b] == h.cs[a..b - 1] + [h.cs[b - 1]];
      } else {
        assert h.cs[a..b] == [];
      }
    }

    /** After an observation the followers are those reported, in order and once each; the master is apart from them
        exactly when it is not reported to be a live follower itself. */
    lemma ObservationRestarts(skips: bool, g: FailoverGate.Gate, h: History, i: nat)
      requires Sound() && IsHistory(skips, g, h) && i < |h.events| && h.events[i].Observe? && !skips && |servers| != 1
      ensures h.ms[i + 1].slaves == Reported(h.events[i].ping)
      ensures forall k :: 0 <= k < |servers| ==>
                var r := h.events[i].ping(k);
                servers[k] in h.ms[i + 1].slaves
                <==> r.isFollower && r.info.state != Failed && r.info.state != ErrorAuth
      ensures Disjoint(h.ms[i + 1])
              <==> forall k :: 0 <= k < |servers| && LiveFollower(h.events[i].ping(k)) ==>
                     servers[k] != h.ms[i + 1].master
    {
      assert Explained(skips, g, h, i);
      ReportedApart(h.events[i].ping, h.ms[i + 1]);
      forall k | 0 <= k < |servers|
        ensures servers[k] in Reported(h.events[i].ping) <==> LiveFollower(h.events[i].ping(k))
      {
        AtMember(ReportMarks(h.events[i].ping), k);
      }
    }

    lemma ReportedApart(ping: nat -> Report, m: Members<ServerMonitor?>)
      requires Sound() && m.slaves == Reported(ping)
      ensures Disjoint(m) <==> forall k :: 0 <= k < |servers| && LiveFollower(ping(k)) ==> servers[k] != m.master
    {
      var r := Reported(ping);
      AtOnce(ReportMarks(ping));
      MasterFirst(m.master, r);
      if m.master in r {
        var i :| 0 <= i < |r| && r[i] == m.master;
        var k := Chosen(ReportMarks(ping))[i];
        AtMember(ReportMarks(ping), k);
        assert servers[k] == m.master && LiveFollower(ping(k));
      }
      forall k | 0 <= k < |servers| && LiveFollower(ping(k)) ensures servers[k] in r {
        AtMember(ReportMarks(ping), k);
      }
    }

    lemma MasterFirst(m: ServerMonitor?, l: seq<ServerMonitor?>)
      requires Distinct(l)
      ensures Disjoint(Members(m, l)) <==> m !in l
    {
      var all := [m] + l;
      assert forall i :: 0 <= i < |l| ==> all[i + 1] == l[i];
      if m in l {
        var i :| 0 <= i < |l| && l[i] == m;
        assert all[0] == all[i + 1];
      }
    }
  }

  /** The positions of the marks that are set. */
  function Chosen(marks: seq<bool>): (l: seq<nat>)
    ensures forall i :: 0 <= i < |l| ==> l[i] < |marks|
  {
    if marks == [] then [] else
      var n := |marks| - 1;
      Chosen(marks[..n]) + if marks[n] then [n] else []
  }

  lemma ChosenStep(marks: seq<bool>, k: nat)
    requires k < |marks|
    ensures Chosen(marks[..k + 1]) == Chosen(marks[..k]) + if marks[k] then [k] else []
  {
    assert marks[..k + 1][..k] == marks[..k];
  }

  lemma {:induction false} ChosenOnce(marks: seq<bool>)
    ensures forall i, j :: 0 <= i < j < |Chosen(marks)| ==> Chosen(marks)[i] < Chosen(marks)[j]
    ensures forall i :: i in Chosen(marks) <==> 0 <= i < |marks| && marks[i]
  {
    if marks != [] {
      ChosenOnce(marks[..|marks| - 1]);
    }
  }

  /** What a run of the monitor leaves behind. */
  datatype History = History(
    events: seq<Event>,
    es: seq<FailoverGate.Event>,
    cs: seq<Change>,
    ms: seq<Members<ServerMonitor?>>)

  function Urls(l: seq<ServerMonitor>): (r: seq<string>)
    ensures |r| == |l| && forall i :: 0 <= i < |l| ==> r[i] == l[i].url
  {
    if l == [] then [] else Urls(l[..|l| - 1]) + [l[|l| - 1].url]
  }

  ghost predicate IsFirst(l: seq<ServerMonitor>, k: nat, url: string)
    requires k < |l|
  {
    l[k].url == url && forall i :: 0 <= i < k ==> l[i].url != url
  }
}
