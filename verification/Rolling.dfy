/** Rolling restart: every follower in turn, then the former master after a switchover. */
module Rolling {
  import opened Prelude

  /** How the outside answers one request about a server: with an error or not, and whether the
      server is down afterwards. */
  datatype Reply = Reply(err: bool, down: bool)

  /** The answers met during one rolling restart: a start that reports no error leaves the server up, and each of the
      two switchovers asked for leaves some leader. */
  datatype World = World(stop: nat -> Reply, reachesFailed: nat -> bool, start: nat -> Reply,
                         leaderAfter: nat, leaderFinal: nat)

  ghost predicate Plausible(w: World) { forall s :: !w.start(s).err ==> !w.start(s).down }

  /** The server stops, is seen failed and starts again. */
  predicate Restarts(w: World, s: nat) { !w.stop(s).err && w.reachesFailed(s) && !w.start(s).err }

  /** One moment of the run: the server told to stop, if any, the master, the servers that are down, whether failover
      insists on semi-sync, and whether the monitor knows that a rolling restart is going on. */
  datatype Moment = Moment(target: Option<nat>, master: nat, down: set<nat>, failSync: bool, rolling: bool)

  /** A stop never hits the master, of the servers that were up at the start at most one is down, semi-sync is not
      insisted on and the rolling restart is on record. */
  ghost predicate Careful(m: Moment, downBefore: set<nat>) {
    && (m.target.Some? ==> m.target.value != m.master)
    && !m.failSync && m.rolling
    && exists s :: m.down <= downBefore + {s}
  }

  ghost predicate AllCareful(trace: seq<Moment>, downBefore: set<nat>) {
    forall i :: 0 <= i < |trace| ==> Careful(trace[i], downBefore)
  }

  /** The servers told to stop, in order. */
  ghost function Stops(trace: seq<Moment>): seq<nat> {
    if trace == [] then [] else
      var last := trace[|trace| - 1];
      Stops(trace[..|trace| - 1]) + if last.target.Some? then [last.target.value] else []
  }

  lemma {:induction false} StopsAppend(a: seq<Moment>, b: seq<Moment>)
    ensures Stops(a + b) == Stops(a) + Stops(b)
  {
    if b == [] {
      assert a + b == a;
    } else {
      StopsAppend(a, b[..|b| - 1]);
      assert (a + b)[..|a + b| - 1] == a + b[..|b| - 1];
    }
  }

  lemma StopsPush(trace: seq<Moment>, m: Moment)
    ensures Stops(trace + [m]) == Stops(trace) + if m.target.Some? then [m.target.value] else []
  {
    assert (trace + [m])[..|trace|] == trace;
  }

  /** The servers of a list that are up. */
  ghost function UpOf(l: seq<nat>, down: set<nat>): seq<nat> {
    if l == [] then [] else UpOf(l[..|l| - 1], down) + if l[|l| - 1] in down then [] else [l[|l| - 1]]
  }

  lemma {:induction false} UpOfPrefix(l: seq<nat>, i: nat, down: set<nat>)
    requires i <= |l|
    ensures UpOf(l[..i], down) <= UpOf(l, down)
    decreases |l|
  {
    if i < |l| {
      UpOfPrefix(l[..|l| - 1], i, down);
      assert l[..|l| - 1][..i] == l[..i];
    } else {
      assert l[..i] == l;
    }
  }

  function Toggled(on: set<nat>, s: nat): set<nat> { if s in on then on - {s} else on + {s} }

  class RollingCluster {
    var master: nat
    var slaves: seq<nat>
    var down: set<nat>
    var maintenance: set<nat>
    var failSync: bool
    var inRollingRestart: bool

    constructor (master: nat, slaves: seq<nat>, down: set<nat>, maintenance: set<nat>, failSync: bool)
      ensures this.master == master && this.slaves == slaves && this.down == down
      ensures this.maintenance == maintenance && this.failSync == failSync && !inRollingRestart
    {
      this.master, this.slaves, this.down, this.maintenance := master, slaves, down, maintenance;
      this.failSync, inRollingRestart := failSync, false;
    }

    method SwitchMaintenance(s: nat)
      modifies this`maintenance
      ensures maintenance == Toggled(old(maintenance), s)
    {
      maintenance := if s in maintenance then maintenance - {s} else maintenance + {s};
    }

    method Observe(s: nat, isDown: bool)
      modifies this`down
      ensures down == if isDown then old(down) + {s} else old(down) - {s}
    {
      down := if isDown then down + {s} else down - {s};
    }

    /** Stop a server, wait until it is seen failed, start it again; `revert` leaves maintenance
        when the stop or the wait fails. */
    method Restart(s: nat, w: World, revert: bool) returns (ok: bool, ghost trace: seq<Moment>)
      requires Plausible(w) && s != master && s !in down && !failSync && inRollingRestart
      modifies this`down, this`maintenance
      ensures Stops(trace) == [s]
      ensures AllCareful(trace, old(down)) && trace != [] && trace[0].target == Some(s)
      ensures old(down) <= down <= old(down) + {s}
      ensures ok ==> down == old(down) && maintenance == old(maintenance) + {s}
      ensures ok <==> Restarts(w, s)
      ensures !ok ==> maintenance == if revert && (w.stop(s).err || !w.reachesFailed(s)) then old(maintenance) - {s}
                                     else old(maintenance) + {s}
    {
      ok, trace := false, [];
      if s !in maintenance {
        SwitchMaintenance(s);
      }
      var stopped := w.stop(s);
      Observe(s, stopped.down);
      trace := [Moment(Some(s), master, down, failSync, inRollingRestart)];
      assert trace[..0] == [] && Careful(trace[0], old(down));
      if stopped.err || !w.reachesFailed(s) {
        if revert {
          SwitchMaintenance(s);
        }
        return;
      }
      Observe(s, true);
      ghost var seen := Moment(None, master, down, failSync, inRollingRestart);
      var started := w.start(s);
      Observe(s, started.down);
      ghost var back := Moment(None, master, down, failSync, inRollingRestart);
      assert Careful(seen, old(down)) && Careful(back, old(down));
      StopsPush(trace, seen);
      StopsPush(trace + [seen], back);
      trace := trace + [seen] + [back];
      ok := !started.err;
    }

    /** RollingRestart. Whatever fails on the way: only non-masters are stopped, one at a time, and the
        semi-sync requirement is put back. */
    method RollingRestart(w: World) returns (ok: bool, ghost trace: seq<Moment>)
      requires Plausible(w) && master !in slaves && Distinct(slaves)
      modifies this
      ensures AllCareful(trace, old(down))
      ensures ok <==> && (forall s :: s in slaves && s !in old(down) ==> Restarts(w, s))
                      && (w.leaderAfter == old(master) || (old(master) !in old(down) && Restarts(w, old(master))))
      ensures Stops(trace) <= UpOf(slaves, old(down)) + [old(master)]
      ensures ok ==>
                Stops(trace) == UpOf(slaves, old(down)) + if w.leaderAfter == old(master) then [] else [old(master)]
      ensures exists s :: old(down) <= down + {s} && down <= old(down) + {s}
      ensures failSync == old(failSync) && !inRollingRestart && slaves == old(slaves)
      ensures ok ==> down == old(down)
      ensures ok ==> forall s :: s in slaves ==> (s in maintenance <==> s in old(down) && s !in old(maintenance))
      ensures ok && w.leaderAfter != old(master) ==> old(master) !in maintenance
      ensures ok ==> master == if w.leaderAfter == old(master) then w.leaderAfter else w.leaderFinal
    {
      inRollingRestart := true;
      var masterId := master;
      var saved := failSync;
      failSync := false;
      ok, trace := SlavesThenMaster(w, masterId);
      failSync := saved;
      inRollingRestart := false;
    }

    /** The part that runs between saving and restoring the settings. */
    method SlavesThenMaster(w: World, masterId: nat) returns (ok: bool, ghost trace: seq<Moment>)
      requires Plausible(w) && master == masterId && master !in slaves && Distinct(slaves)
      requires !failSync && inRollingRestart
      modifies this`down, this`maintenance, this`master
      ensures AllCareful(trace, old(down))
      ensures ok <==> && (forall s :: s in slaves && s !in old(down) ==> Restarts(w, s))
                      && (w.leaderAfter == masterId || (masterId !in old(down) && Restarts(w, masterId)))
      ensures Stops(trace) <= UpOf(slaves, old(down)) + [masterId]
      ensures ok ==> Stops(trace) == UpOf(slaves, old(down)) + if w.leaderAfter == masterId then [] else [masterId]
      ensures exists s :: old(down) <= down + {s} && down <= old(down) + {s}
      ensures ok ==> down == old(down)
      ensures ok ==> forall s :: s in slaves ==> (s in maintenance <==> s in old(down) && s !in old(maintenance))
      ensures ok && w.leaderAfter != masterId ==> masterId !in maintenance
      ensures ok ==> master == if w.leaderAfter == masterId then w.leaderAfter else w.leaderFinal
    {
      ok, trace := RestartSlaves(w);
      if !ok {
        return;
      }
      master := w.leaderAfter;
      StopsPush(trace, Moment(None, master, down, failSync, inRollingRestart));
      trace := trace + [Moment(None, master, down, failSync, inRollingRestart)];
      assert Careful(trace[|trace| - 1], old(down)) by {
        assert down <= old(down) + {0};
      }
      if master == masterId {
        assert old(down) <= down + {0} && down <= old(down) + {0};
        return;
      }
      ghost var more;
      ok, more := RestartFormer(masterId, w);
      assert old(down) <= down + {masterId} && down <= old(down) + {masterId};
      StopsAppend(trace, more);
      trace := trace + more;
    }

    /** The former master, once another server leads; then the leader may move once more. */
    method RestartFormer(s: nat, w: World) returns (ok: bool, ghost trace: seq<Moment>)
      requires Plausible(w) && master != s && !failSync && inRollingRestart
      modifies this`down, this`maintenance, this`master
      ensures AllCareful(trace, old(down))
      ensures ok <==> s !in old(down) && Restarts(w, s)
      ensures Stops(trace) == if s in old(down) then [] else [s]
      ensures old(down) <= down <= old(down) + {s} && (ok ==> down == old(down))
      ensures forall x :: x != s ==> (x in maintenance <==> x in old(maintenance))
      ensures ok ==> master == w.leaderFinal && s !in maintenance
    {
      if s in down {
        return false, [];
      }
      ok, trace := Restart(s, w, false);
      if ok {
        SwitchMaintenance(s);
        master := w.leaderFinal;
        ghost var m := Moment(None, master, down, failSync, inRollingRestart);
        assert Careful(m, old(down)) by {
          assert down <= old(down) + {0};
        }
        StopsPush(trace, m);
        trace := trace + [m];
      }
    }

    method RestartSlaves(w: World) returns (ok: bool, ghost trace: seq<Moment>)
      requires Plausible(w) && master !in slaves && Distinct(slaves) && !failSync && inRollingRestart
      modifies this`down, this`maintenance
      ensures AllCareful(trace, old(down))
      ensures Stops(trace) <= UpOf(slaves, old(down)) && (ok ==> Stops(trace) == UpOf(slaves, old(down)))
      ensures ok ==> down == old(down)
      ensures exists s :: old(down) <= down + {s} && down <= old(down) + {s}
      ensures ok ==> forall s :: s in slaves ==> (s in maintenance <==> s in old(down) && s !in old(maintenance))
      ensures ok <==> forall s :: s in slaves && s !in old(down) ==> Restarts(w, s)
    {
      ok, trace := true, [];
      for i := 0 to |slaves|
        invariant down == old(down)
        invariant AllCareful(trace, old(down))
        invariant Stops(trace) == UpOf(slaves[..i], old(down))
        invariant forall k :: 0 <= k < i ==>
                    (slaves[k] in maintenance <==> slaves[k] in old(down) && slaves[k] !in old(maintenance))
        invariant forall k :: i <= k < |slaves| ==> (slaves[k] in maintenance <==> slaves[k] in old(maintenance))
        invariant forall k :: 0 <= k < i && slaves[k] !in old(down) ==> Restarts(w, slaves[k])
      {
        var s := slaves[i];
        assert s in slaves && slaves[..i + 1][..i] == slaves[..i];
        if s !in down {
          ghost var more;
          ok, more := Restart(s, w, true);
          StopsAppend(trace, more);
          UpOfPrefix(slaves, i + 1, old(down));
          trace := trace + more;
          if !ok {
            assert old(down) <= down + {s} && down <= old(down) + {s};
            return;
          }
        }
        SwitchMaintenance(s);
      }
      assert slaves[..|slaves|] == slaves;
      assert old(down) <= down + {0} && down <= old(down) + {0};
    }
  }
}
