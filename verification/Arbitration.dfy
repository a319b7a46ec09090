/** Several monitors of one cluster, cut off from each other, and the arbitrator that
    decides which of them may act. */
module Arbitration {
  import opened Prelude

  // ---- The arbitrator's table for one cluster ----

  datatype Row = Row(master: string, failed: nat, elected: bool)

  /** `round` counts the times an elected row was lost; it is not part of the table. */
  datatype Backend = Backend(rows: map<nat, Row>, round: nat)

  function Elected(rows: map<nat, Row>): set<nat> { set u | u in rows && rows[u].elected }

  /** No other monitor is elected, and none that is not sees fewer failed servers. */
  predicate Wins(rows: map<nat, Row>, uid: nat, failed: nat) {
    && (forall u :: u in rows && u != uid ==> !rows[u].elected)
    && (forall u :: u in rows && u != uid && !rows[u].elected ==> rows[u].failed >= failed)
  }

  function Written(b: Backend, rows: map<nat, Row>): Backend {
    Backend(rows, if Elected(b.rows) <= Elected(rows) then b.round else b.round + 1)
  }

  function Requested(b: Backend, uid: nat, master: string, failed: nat): Backend {
    if Wins(b.rows, uid, failed) then Written(b, b.rows[uid := Row(master, failed, true)]) else b
  }

  /** A heartbeat replaces the monitor's row, which is then not elected; if all recent rows agree
      on the master, nobody stays elected. */
  function Reported(b: Backend, uid: nat, master: string, failed: nat, recent: set<nat>): Backend {
    var rows := b.rows[uid := Row(master, failed, false)];
    var masters := set u | u in rows && (u in recent || u == uid) :: rows[u].master;
    Written(b, if |masters| == 1 then map u | u in rows :: rows[u].(elected := false) else rows)
  }

  class ArbitratorDb {
    var rows: map<nat, Row>
    ghost var round: nat

    ghost function View(): Backend
      reads this
    {
      Backend(rows, round)
    }

    constructor ()
      ensures View() == Backend(map[], 0)
    {
      rows, round := map[], 0;
    }

    method Store(next: map<nat, Row>)
      modifies this
      ensures View() == Written(old(View()), next)
    {
      round := if Elected(rows) <= Elected(next) then round else round + 1;
      rows := next;
    }

    method WriteHeartbeat(uid: nat, master: string, failed: nat, recent: set<nat>)
      modifies this
      ensures View() == Reported(old(View()), uid, master, failed, recent)
    {
      var next := rows[uid := Row(master, failed, false)];
      var masters := set u | u in next && (u in recent || u == uid) :: next[u].master;
      if |masters| == 1 {
        next := map u | u in next :: next[u].(elected := false);
      }
      Store(next);
    }

    method RequestArbitration(uid: nat, master: string, failed: nat) returns (won: bool)
      modifies this
      ensures won == Wins(old(rows), uid, failed)
      ensures View() == Requested(old(View()), uid, master, failed)
    {
      if exists u | u in rows.Keys :: u != uid && rows[u].elected {
        return false;
      }
      if exists u | u in rows.Keys :: u != uid && !rows[u].elected && rows[u].failed < failed {
        return false;
      }
      Store(rows[uid := Row(master, failed, true)]);
      return true;
    }
  }

  // ---- A monitor ----

  datatype Status = Status(active: bool, splitBrain: bool, splitBrainBck: bool, failedArbitrator: bool)

  /** A call to the arbitrator: it is lost, it is processed but the answer is lost, or it is answered. */
  datatype Call = Unreached | Unanswered | Answered

  datatype Point = Point(monitor: Status, backend: Backend)

  /** ArbitratorElection, when the split-brain status has changed; `won` is None if the call failed. */
  function Elect(p: Point, uid: nat, master: string, failed: nat, call: Call): (r: (Option<bool>, Point)) {
    var m, b := p.monitor, p.backend;
    match call
    case Unreached => (None, Point(m.(failedArbitrator := true), b))
    case Unanswered => (None, Point(m.(failedArbitrator := true), Requested(b, uid, master, failed)))
    case Answered =>
      var won := Wins(b.rows, uid, failed);
      (Some(won), Point(m.(failedArbitrator := false, active := won), Requested(b, uid, master, failed)))
  }

  /** Up to three attempts, from attempt i: the first answered one ends the loop. */
  function Retry(p: Point, uid: nat, master: string, failed: nat, calls: seq<Call>, i: nat): (r: (Option<bool>, Point))
    requires i <= |calls|
    decreases |calls| - i
  {
    if i == |calls| then (None, p)
    else
      var (won, q) := Elect(p, uid, master, failed, calls[i]);
      if won.Some? then (won, q) else Retry(q, uid, master, failed, calls, i + 1)
  }

  /** What one heartbeat may meet: the fate of the report, which rows are recent, and the fate of the calls. */
  datatype Weather = Weather(master: string, failed: nat, report: Call, recent: set<nat>, calls: seq<Call>)

  function Report(p: Point, uid: nat, w: Weather): Point {
    Point(p.monitor.(failedArbitrator := !w.report.Answered?),
          if w.report.Unreached? then p.backend else Reported(p.backend, uid, w.master, w.failed, w.recent))
  }

  function Beat(p: Point, uid: nat, w: Weather): (r: (Option<bool>, Point)) {
    if !p.monitor.splitBrain then (None, p.(monitor := p.monitor.(splitBrainBck := false)))
    else
      var q := Report(p, uid, w);
      var (won, r) := if p.monitor.splitBrainBck then (None, q) else Retry(q, uid, w.master, w.failed, w.calls, 0);
      (won, r.(monitor := r.monitor.(splitBrainBck := true)))
  }

  const ATTEMPTS: nat := 3

  class MonitorNode {
    const uid: nat
    var active: bool
    var splitBrain: bool
    var splitBrainBck: bool
    var isFailedArbitrator: bool

    constructor (uid: nat, active: bool)
      ensures this.uid == uid && View() == Status(active, false, false, false)
    {
      this.uid, this.active := uid, active;
      splitBrain, splitBrainBck, isFailedArbitrator := false, false, false;
    }

    ghost function View(): Status
      reads this
    {
      Status(active, splitBrain, splitBrainBck, isFailedArbitrator)
    }

    /** One call, once it is known that the split-brain status has changed. */
    method ArbitratorElection(db: ArbitratorDb, master: string, failed: nat, call: Call) returns (won: Option<bool>)
      modifies this`active, this`isFailedArbitrator, db
      ensures (won, Point(View(), db.View())) == Elect(old(Point(View(), db.View())), uid, master, failed, call)
    {
      if call.Unreached? {
        isFailedArbitrator := true;
        return None;
      }
      var answer := db.RequestArbitration(uid, master, failed);
      if call.Unanswered? {
        isFailedArbitrator := true;
        return None;
      }
      isFailedArbitrator := false;
      active := answer;
      return Some(answer);
    }

    method SetArbitratorReport(db: ArbitratorDb, w: Weather)
      modifies this`isFailedArbitrator, db
      ensures Point(View(), db.View()) == Report(old(Point(View(), db.View())), uid, w)
    {
      if w.report.Unreached? {
        isFailedArbitrator := true;
        return;
      }
      db.WriteHeartbeat(uid, w.master, w.failed, w.recent);
      isFailedArbitrator := w.report.Unanswered?;
    }

    /** Heartbeat with arbitration configured. */
    method Heartbeat(db: ArbitratorDb, w: Weather) returns (won: Option<bool>)
      requires |w.calls| == ATTEMPTS
      modifies this, db
      ensures (won, Point(View(), db.View())) == Beat(old(Point(View(), db.View())), uid, w)
    {
      won := None;
      if splitBrain {
        SetArbitratorReport(db, w);
        if splitBrainBck != splitBrain {
          ghost var goal := Retry(Point(View(), db.View()), uid, w.master, w.failed, w.calls, 0);
          var i := 0;
          while i < ATTEMPTS && won.None?
            invariant 0 <= i <= ATTEMPTS && splitBrain && !splitBrainBck
            invariant won.None? ==> goal == Retry(Point(View(), db.View()), uid, w.master, w.failed, w.calls, i)
            invariant won.Some? ==> goal == (won, Point(View(), db.View()))
          {
            won := ArbitratorElection(db, w.master, w.failed, w.calls[i]);
            i := i + 1;
          }
        }
      }
      splitBrainBck := splitBrain;
    }
  }

  // ---- All monitors together ----

  /** The system, with a record of who was told to be the winner, who failed over, and the round in which each
      monitor's election last succeeded. */
  datatype System = System(
    backend: Backend,
    monitors: map<nat, Status>,
    told: set<(nat, nat)>,
    acted: set<(nat, nat)>,
    electedIn: map<nat, nat>)

  datatype Event =
    | Beats(uid: nat, weather: Weather)
    | Checks(uid: nat, master: string, call: Call, others: bool)
    | Splits(uid: nat, split: bool)
    | Forget

  function Told(sys: System, uid: nat, won: bool): set<(nat, nat)> {
    if won then sys.told + {(sys.backend.round, uid)} else sys.told
  }

  /** One step of one monitor. A failure check asks the arbitrator anew, without its failure count, and
      fails over only on the answer "winner" and with the arbitrator known to be alive. */
  function Step(sys: System, e: Event): System {
    match e
    case Beats(uid, w) =>
      if uid !in sys.monitors then sys
      else
        var (won, p) := Beat(Point(sys.monitors[uid], sys.backend), uid, w);
        var next := sys.(backend := p.backend, monitors := sys.monitors[uid := p.monitor]);
        if won.None? then next
        else next.(told := Told(next, uid, won.value), electedIn := sys.electedIn[uid := p.backend.round])
    case Checks(uid, master, call, others) =>
      if uid !in sys.monitors || call.Unreached? then sys
      else
        var won := Wins(sys.backend.rows, uid, 0) && call.Answered?;
        var next := sys.(backend := Requested(sys.backend, uid, master, 0));
        var fires := won && others && !sys.monitors[uid].failedArbitrator;
        next.(told := Told(next, uid, won),
              acted := if fires then sys.acted + {(next.backend.round, uid)} else sys.acted)
    case Splits(uid, split) =>
      if uid !in sys.monitors then sys
      else sys.(monitors := sys.monitors[uid := sys.monitors[uid].(splitBrain := split)])
    case Forget => sys.(backend := Written(sys.backend, map[]))
  }

  function Run(sys: System, es: seq<Event>): System {
    if es == [] then sys else Step(Run(sys, es[..|es| - 1]), es[|es| - 1])
  }

  /** Before anything was asked. */
  function Start(monitors: map<nat, Status>): System {
    System(Backend(map[], 0), monitors, {}, {}, map[])
  }

  // ---- The arbitrator has one winner per round ----

  ghost predicate OneElected(rows: map<nat, Row>) {
    forall u, v :: u in Elected(rows) && v in Elected(rows) ==> u == v
  }

  /** At most one elected row; whoever was told to have won in the present round is still elected; and no round
      has two winners. */
  ghost predicate Sound(b: Backend, told: set<(nat, nat)>) {
    && OneElected(b.rows)
    && (forall p :: p in told ==> p.0 <= b.round)
    && (forall p :: p in told && p.0 == b.round ==> p.1 in Elected(b.rows))
    && (forall p, q :: p in told && q in told && p.0 == q.0 ==> p.1 == q.1)
  }

  lemma WrittenSound(b: Backend, told: set<(nat, nat)>, rows: map<nat, Row>)
    requires Sound(b, told) && OneElected(rows)
    ensures Sound(Written(b, rows), told)
  {
  }

  lemma RequestSound(b: Backend, told: set<(nat, nat)>, uid: nat, master: string, failed: nat)
    requires Sound(b, told)
    ensures Sound(Requested(b, uid, master, failed), told)
    ensures Requested(b, uid, master, failed).round == b.round
    ensures Wins(b.rows, uid, failed) ==> Sound(Requested(b, uid, master, failed), told + {(b.round, uid)})
  {
    if Wins(b.rows, uid, failed) {
      var rows := b.rows[uid := Row(master, failed, true)];
      assert forall u :: u in Elected(b.rows) ==> u == uid;
      assert Elected(rows) == {uid};
      WrittenSound(b, told, rows);
    }
  }

  lemma ReportSound(b: Backend, told: set<(nat, nat)>, uid: nat, master: string, failed: nat, recent: set<nat>)
    requires Sound(b, told)
    ensures Sound(Reported(b, uid, master, failed, recent), told)
  {
    var rows := b.rows[uid := Row(master, failed, false)];
    assert Elected(rows) <= Elected(b.rows);
    var cleared := map u | u in rows :: rows[u].(elected := false);
    assert Elected(cleared) == {};
    WrittenSound(b, told, rows);
    WrittenSound(b, told, cleared);
  }

  /** The outcome of a heartbeat: sound, and the monitor is active afterwards iff it just won, or was
      active before and got no answer. */
  ghost predicate Fair(p: Point, told: set<(nat, nat)>, uid: nat, r: (Option<bool>, Point)) {
    && Sound(r.1.backend, told)
    && (r.0 == Some(true) ==> Sound(r.1.backend, told + {(r.1.backend.round, uid)}))
    && r.1.monitor.active == (if r.0.Some? then r.0.value else p.monitor.active)
  }

  lemma ElectFair(p: Point, told: set<(nat, nat)>, uid: nat, master: string, failed: nat, call: Call)
    requires Sound(p.backend, told)
    ensures Fair(p, told, uid, Elect(p, uid, master, failed, call))
  {
    RequestSound(p.backend, told, uid, master, failed);
  }

  lemma {:induction false} RetryFair(p: Point, told: set<(nat, nat)>, uid: nat, master: string, failed: nat,
                                     calls: seq<Call>, i: nat)
    requires Sound(p.backend, told) && i <= |calls|
    ensures Fair(p, told, uid, Retry(p, uid, master, failed, calls, i))
    decreases |calls| - i
  {
    if i < |calls| {
      ElectFair(p, told, uid, master, failed, calls[i]);
      var (won, q) := Elect(p, uid, master, failed, calls[i]);
      if won.None? {
        RetryFair(q, told, uid, master, failed, calls, i + 1);
      }
    }
  }

  lemma BeatFair(p: Point, told: set<(nat, nat)>, uid: nat, w: Weather)
    requires Sound(p.backend, told)
    ensures Fair(p, told, uid, Beat(p, uid, w))
  {
    if p.monitor.splitBrain {
      ReportSound(p.backend, told, uid, w.master, w.failed, w.recent);
      RetryFair(Report(p, uid, w), told, uid, w.master, w.failed, w.calls, 0);
    }
  }

  // ---- Every interleaving ----

  ghost predicate Safe(sys: System) {
    && Sound(sys.backend, sys.told)
    && sys.acted <= sys.told
    && (forall u :: ElectedActive(sys, u) ==> (sys.electedIn[u], u) in sys.told)
  }

  lemma BeatSafe(sys: System, uid: nat, w: Weather)
    requires Safe(sys) && uid in sys.monitors
    ensures Safe(Step(sys, Beats(uid, w)))
  {
    BeatFair(Point(sys.monitors[uid], sys.backend), sys.told, uid, w);
    var (won, p) := Beat(Point(sys.monitors[uid], sys.backend), uid, w);
    var next := Step(sys, Beats(uid, w));
    assert next.monitors == sys.monitors[uid := p.monitor];
    forall u | ElectedActive(next, u) ensures (next.electedIn[u], u) in next.told {
      if u != uid {
        assert sys.monitors[u].active;
      } else if won.None? {
        assert sys.monitors[uid].active;
      }
    }
  }

  lemma StepSafe(sys: System, e: Event)
    requires Safe(sys)
    ensures Safe(Step(sys, e))
  {
    match e
    case Beats(uid, w) =>
      if uid in sys.monitors {
        BeatSafe(sys, uid, w);
      }
    case Checks(uid, master, call, others) =>
      RequestSound(sys.backend, sys.told, uid, master, 0);
    case Splits(uid, split) =>
      var next := Step(sys, e);
      forall u | ElectedActive(next, u) ensures (next.electedIn[u], u) in next.told {
        assert u in sys.monitors && sys.monitors[u].active;
      }
    case Forget =>
      assert Elected(map[]) == {};
      WrittenSound(sys.backend, sys.told, map[]);
  }

  lemma {:induction false} RunSafe(monitors: map<nat, Status>, es: seq<Event>)
    ensures Safe(Run(Start(monitors), es))
  {
    if es == [] {
      assert Elected(Start(monitors).backend.rows) == {};
    } else {
      RunSafe(monitors, es[..|es| - 1]);
      StepSafe(Run(Start(monitors), es[..|es| - 1]), es[|es| - 1]);
    }
  }

  /** Any number of monitors, any interleaving, any losses and retries: within a round of the arbitrator at most one
      monitor fails over, and at most one of those whose election succeeded in it is active. */
  lemma OneActorPerRound(monitors: map<nat, Status>, es: seq<Event>, round: nat, u: nat, v: nat)
    ensures var sys := Run(Start(monitors), es);
            && ((round, u) in sys.acted && (round, v) in sys.acted ==> u == v)
            && (u in sys.electedIn && v in sys.electedIn && u in sys.monitors && v in sys.monitors
                && sys.electedIn[u] == sys.electedIn[v] == round && sys.monitors[u].active && sys.monitors[v].active
                ==> u == v)
            && ((round, u) in sys.acted && v in sys.electedIn && v in sys.monitors
                && sys.electedIn[v] == round && sys.monitors[v].active
                ==> u == v)
  {
    RunSafe(monitors, es);
    var sys := Run(Start(monitors), es);
    assert (round, u) in sys.told && (round, v) in sys.told ==> (round, u).1 == (round, v).1;
  }

  /** A heartbeat of the elected monitor replaces its own row: nobody is elected any more and the round is over. */
  lemma ReportEndsTheRound(b: Backend, uid: nat, master: string, failed: nat, recent: set<nat>)
    requires OneElected(b.rows) && uid in Elected(b.rows)
    ensures Elected(Reported(b, uid, master, failed, recent).rows) == {}
    ensures Reported(b, uid, master, failed, recent).round == b.round + 1
  {
    var rows := b.rows[uid := Row(master, failed, false)];
    assert forall u :: u in b.rows && b.rows[u].elected ==> u in Elected(b.rows);
    assert Elected(rows) == {};
    assert Elected(map u | u in rows :: rows[u].(elected := false)) == {};
  }

  // ---- Who wins, and when a monitor asks ----

  /** While another monitor is elected, or one that is not has seen fewer failed servers, a request is refused and
      changes nothing. */
  lemma RequestRefused(b: Backend, uid: nat, master: string, failed: nat, u: nat)
    requires u in b.rows && u != uid && (b.rows[u].elected || b.rows[u].failed < failed)
    ensures !Wins(b.rows, uid, failed) && Requested(b, uid, master, failed) == b
  {
  }

  /** When nobody else is elected and nobody else has seen fewer failed servers it is granted, and recorded. */
  lemma RequestGranted(b: Backend, uid: nat, master: string, failed: nat)
    requires forall u :: u in b.rows && u != uid ==> !b.rows[u].elected && b.rows[u].failed >= failed
    ensures Wins(b.rows, uid, failed)
    ensures var rows := Requested(b, uid, master, failed).rows;
            && uid in rows && rows[uid] == Row(master, failed, true)
            && forall u :: u != uid ==> (u in rows <==> u in b.rows) && (u in b.rows ==> rows[u] == b.rows[u])
  {
  }

  /** Of several calls the first that is answered decides: with lost calls before it, its answer is that of the table
      as those calls left it. */
  lemma {:induction false} RetryDecided(p: Point, uid: nat, w: Weather, i: nat, k: nat)
    requires i <= k < |w.calls| && w.calls[k].Answered? && forall j :: i <= j < k ==> !w.calls[j].Answered?
    ensures var (won, q) := Retry(p, uid, w.master, w.failed, w.calls, i);
            && won == Some(Wins(p.backend.rows, uid, w.failed))
            && q.monitor.active == won.value && !q.monitor.failedArbitrator
    decreases k - i
  {
    if i < k {
      RequestAgain(p.backend, uid, w.master, w.failed);
      var (won, q) := Elect(p, uid, w.master, w.failed, w.calls[i]);
      RetryDecided(q, uid, w, i + 1, k);
    }
  }

  /** Asking again gives the same answer. */
  lemma RequestAgain(b: Backend, uid: nat, master: string, failed: nat)
    ensures Wins(Requested(b, uid, master, failed).rows, uid, failed) == Wins(b.rows, uid, failed)
  {
  }

  /** Without an answer the monitor keeps its status and takes the arbitrator for failed. */
  lemma {:induction false} RetryUndecided(p: Point, uid: nat, w: Weather, i: nat)
    requires i < |w.calls| && forall j :: i <= j < |w.calls| ==> !w.calls[j].Answered?
    ensures var (won, q) := Retry(p, uid, w.master, w.failed, w.calls, i);
            won.None? && q.monitor.active == p.monitor.active && q.monitor.failedArbitrator
    decreases |w.calls| - i
  {
    if i + 1 < |w.calls| {
      var (won, q) := Elect(p, uid, w.master, w.failed, w.calls[i]);
      RetryUndecided(q, uid, w, i + 1);
    }
  }

  /** A monitor asks for election only when it enters a split brain; outside one it leaves the arbitrator alone, and
      every heartbeat remembers the status it saw. */
  lemma BeatAsksOnEntry(p: Point, uid: nat, w: Weather)
    ensures var (won, q) := Beat(p, uid, w);
            && q.monitor.splitBrain == p.monitor.splitBrain && q.monitor.splitBrainBck == p.monitor.splitBrain
            && (!p.monitor.splitBrain || p.monitor.splitBrainBck ==> won.None? && q.monitor.active == p.monitor.active)
            && (!p.monitor.splitBrain ==> q.backend == p.backend)
            && (p.monitor.splitBrain && p.monitor.splitBrainBck ==> q.monitor.failedArbitrator == !w.report.Answered?)
  {
    if p.monitor.splitBrain && !p.monitor.splitBrainBck {
      RetryKeepsFlags(Report(p, uid, w), uid, w, 0);
    }
  }

  lemma {:induction false} RetryKeepsFlags(p: Point, uid: nat, w: Weather, i: nat)
    requires i <= |w.calls|
    ensures var q := Retry(p, uid, w.master, w.failed, w.calls, i).1.monitor;
            q.splitBrain == p.monitor.splitBrain && q.splitBrainBck == p.monitor.splitBrainBck
    decreases |w.calls| - i
  {
    if i < |w.calls| {
      var (won, q) := Elect(p, uid, w.master, w.failed, w.calls[i]);
      if won.None? {
        RetryKeepsFlags(q, uid, w, i + 1);
      }
    }
  }

  /** A failure check fails over exactly when it is answered, nobody else is elected, everything else permits it and
      the arbitrator is not taken for failed. */
  lemma ActsIff(sys: System, uid: nat, master: string, call: Call, others: bool)
    requires uid in sys.monitors
    ensures var next := Step(sys, Checks(uid, master, call, others));
            var free := forall u :: u in sys.backend.rows && u != uid ==> !sys.backend.rows[u].elected;
            next.acted == if call.Answered? && free && others && !sys.monitors[uid].failedArbitrator
                          then sys.acted + {(sys.backend.round, uid)} else sys.acted
  {
    RequestRound(sys.backend, uid, master, 0);
  }

  // ---- What ends a round, in terms of events ----

  /** The recent rows, once the monitor has written its own, name one master. */
  predicate Agree(b: Backend, uid: nat, w: Weather) {
    var rows := b.rows[uid := Row(w.master, w.failed, false)];
    var masters := set u | u in rows && (u in w.recent || u == uid) :: rows[u].master;
    |masters| == 1
  }

  /** A heartbeat that reaches the arbitrator, sent by the elected monitor or bringing all recent rows to agree on the
      master while somebody is elected; or the table forgotten while somebody is. */
  predicate Ends(sys: System, e: Event) {
    match e
    case Beats(uid, w) =>
      && uid in sys.monitors && sys.monitors[uid].splitBrain && !w.report.Unreached?
      && (uid in Elected(sys.backend.rows) || (Elected(sys.backend.rows) != {} && Agree(sys.backend, uid, w)))
    case Forget => Elected(sys.backend.rows) != {}
    case _ => false
  }

  lemma ReportRound(b: Backend, uid: nat, w: Weather)
    ensures Reported(b, uid, w.master, w.failed, w.recent).round
            == b.round + if uid in Elected(b.rows) || (Elected(b.rows) != {} && Agree(b, uid, w)) then 1 else 0
  {
    var rows := b.rows[uid := Row(w.master, w.failed, false)];
    assert Elected(rows) == Elected(b.rows) - {uid};
    assert Elected(map u | u in rows :: rows[u].(elected := false)) == {};
    if Elected(b.rows) != {} && uid !in Elected(b.rows) {
      var v :| v in Elected(b.rows);
      assert v !in Elected(map u | u in rows :: rows[u].(elected := false));
    }
  }

  lemma RequestRound(b: Backend, uid: nat, master: string, failed: nat)
    ensures Requested(b, uid, master, failed).round == b.round
  {
    if Wins(b.rows, uid, failed) {
      assert Elected(b.rows) <= Elected(b.rows[uid := Row(master, failed, true)]);
    }
  }

  lemma {:induction false} RetryRound(p: Point, uid: nat, w: Weather, i: nat)
    requires i <= |w.calls|
    ensures Retry(p, uid, w.master, w.failed, w.calls, i).1.backend.round == p.backend.round
    decreases |w.calls| - i
  {
    if i < |w.calls| {
      RequestRound(p.backend, uid, w.master, w.failed);
      var (won, q) := Elect(p, uid, w.master, w.failed, w.calls[i]);
      if won.None? {
        RetryRound(q, uid, w, i + 1);
      }
    }
  }

  /** Requests never end a round; a step ends it exactly when it is one of the events above. */
  lemma StepRound(sys: System, e: Event)
    ensures Step(sys, e).backend.round == sys.backend.round + if Ends(sys, e) then 1 else 0
  {
    match e
    case Beats(uid, w) =>
      if uid in sys.monitors {
        ReportRound(sys.backend, uid, w);
        RetryRound(Report(Point(sys.monitors[uid], sys.backend), uid, w), uid, w, 0);
      }
    case Checks(uid, master, call, others) =>
      RequestRound(sys.backend, uid, master, 0);
    case Splits(uid, split) =>
    case Forget =>
      assert Elected(map[]) == {};
  }

  /** No event of the run ends a round. */
  ghost predicate Quiet(monitors: map<nat, Status>, es: seq<Event>) {
    forall i :: 0 <= i < |es| ==> !Ends(Run(Start(monitors), es[..i]), es[i])
  }

  lemma {:induction false} QuietRound(monitors: map<nat, Status>, es: seq<Event>)
    requires Quiet(monitors, es)
    ensures Run(Start(monitors), es).backend.round == 0
  {
    if es != [] {
      var before := es[..|es| - 1];
      forall i | 0 <= i < |before| ensures !Ends(Run(Start(monitors), before[..i]), before[i]) {
        assert before[..i] == es[..i];
      }
      QuietRound(monitors, before);
      StepRound(Run(Start(monitors), before), es[|before|]);
      assert !Ends(Run(Start(monitors), es[..|before|]), es[|before|]);
    }
  }

  /** Active, after an election call of its own that was answered. */
  predicate ElectedActive(sys: System, u: nat) { u in sys.electedIn && u in sys.monitors && sys.monitors[u].active }

  /** A run in which no event ends a round has one winner, hence at most one monitor that ever fails over, and it is
      the only one whose election succeeded that is active. */
  lemma OneActorWhileQuiet(monitors: map<nat, Status>, es: seq<Event>, p: (nat, nat), q: (nat, nat))
    requires Quiet(monitors, es)
    ensures var sys := Run(Start(monitors), es);
            && (p in sys.acted && q in sys.acted ==> p.1 == q.1)
            && (forall u, v :: ElectedActive(sys, u) && ElectedActive(sys, v) ==> u == v)
            && (forall u :: p in sys.acted && ElectedActive(sys, u) ==> u == p.1)
  {
    var sys := Run(Start(monitors), es);
    RunSafe(monitors, es);
    QuietRound(monitors, es);
    assert forall r :: r in sys.told ==> r.0 == 0;
  }

  /** After every event that ends a round, other than a heartbeat that goes on to ask for election itself, whichever
      monitor checks for failure next is told it is the winner, and fails over. */
  lemma AnyoneWinsAfterEnd(sys: System, e: Event, v: nat, master: string)
    requires Ends(sys, e) && (e.Beats? ==> OneElected(sys.backend.rows) && sys.monitors[e.uid].splitBrainBck)
    requires v in Step(sys, e).monitors && !Step(sys, e).monitors[v].failedArbitrator
    ensures (sys.backend.round + 1, v) in Step(Step(sys, e), Checks(v, master, Answered, true)).acted
  {
    var mid := Step(sys, e);
    StepRound(sys, e);
    assert Elected(mid.backend.rows) == {} by {
      NobodyAfterEnd(sys, e);
    }
    assert forall u :: u in mid.backend.rows ==> u !in Elected(mid.backend.rows);
    assert Wins(mid.backend.rows, v, 0);
    RequestRound(mid.backend, v, master, 0);
  }

  lemma NobodyAfterEnd(sys: System, e: Event)
    requires Ends(sys, e) && (e.Beats? ==> OneElected(sys.backend.rows) && sys.monitors[e.uid].splitBrainBck)
    ensures Elected(Step(sys, e).backend.rows) == {}
  {
    match e
    case Beats(uid, w) =>
      var rows := sys.backend.rows[uid := Row(w.master, w.failed, false)];
      assert Elected(rows) == Elected(sys.backend.rows) - {uid};
      assert Elected(map u | u in rows :: rows[u].(elected := false)) == {};
      assert Step(sys, e).backend == Reported(sys.backend, uid, w.master, w.failed, w.recent);
    case Forget =>
  }
}
