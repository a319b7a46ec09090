/** The two brakes on automatic failover, over whole runs of the monitor: how many, and how close together. */
module FailoverGate {

  datatype Limits = Limits(failLimit: int, failTime: int)

  datatype Gate = Gate(ctr: int, ts: int)

  predicate LimitNotReached(c: Limits, g: Gate) { c.failLimit == 0 || g.ctr != c.failLimit }

  predicate TimeValid(c: Limits, g: Gate, now: int) { c.failTime == 0 || g.ts + c.failTime - now <= 0 }

  /** A monitor tick reads the clock, checks both brakes and all other conditions (`others`), and may
      run a failover that completes at `end`; a manual failover skips the checks. */
  datatype Event =
    | Tick(now: int, others: bool, completed: bool, end: int)
    | Switchover(now: int, end: int)
    | Manual(now: int, completed: bool, end: int)
    | ResetCounter(now: int, end: int)
    | Observation(now: int, end: int)

  predicate Fires(c: Limits, g: Gate, e: Event) {
    e.Tick? && e.others && TimeValid(c, g, e.now) && LimitNotReached(c, g)
  }

  predicate Counts(c: Limits, g: Gate, e: Event) {
    (Fires(c, g, e) || e.Manual?) && e.completed
  }

  function Step(c: Limits, g: Gate, e: Event): Gate {
    if Counts(c, g, e) then Gate(g.ctr + 1, e.end)
    else if e.ResetCounter? then Gate(0, 0)
    else g
  }

  function Run(c: Limits, g: Gate, es: seq<Event>): Gate {
    if es == [] then g else Step(c, Run(c, g, es[..|es| - 1]), es[|es| - 1])
  }

  lemma RunAppend(c: Limits, g: Gate, es: seq<Event>, e: Event)
    ensures Run(c, g, es + [e]) == Step(c, Run(c, g, es), e)
  {
    assert (es + [e])[..|es|] == es;
  }

  lemma SpacedFront(c: Limits, g: Gate, es: seq<Event>)
    requires es != [] && Spaced(c, g, es)
    ensures Spaced(c, g, es[..|es| - 1])
    ensures c.failTime == 0 || es[|es| - 1].now >= Stamp(g, es[..|es| - 1], |es| - 1) + c.failTime
  {
    var front := es[..|es| - 1];
    forall i | 0 <= i < |front| && c.failTime != 0 ensures front[i].now >= Stamp(g, front, i) + c.failTime {
      assert front[i] == es[i] && Stamp(g, front, i) == Stamp(g, es, i);
    }
    assert c.failTime == 0 || es[|front|].now >= Stamp(g, es, |front|) + c.failTime;
  }

  /** With no limit, or up to it, nothing holds a failover back but FailTime: n completing ticks, each FailTime after
      the failover before it, add n. */
  lemma {:induction false} TicksCount(c: Limits, g: Gate, es: seq<Event>)
    requires c.failLimit == 0 || g.ctr + |es| <= c.failLimit
    requires Spaced(c, g, es) && forall i :: 0 <= i < |es| ==> es[i].Tick? && es[i].others && es[i].completed
    ensures Run(c, g, es) == Gate(g.ctr + |es|, Stamp(g, es, |es|))
  {
    if es != [] {
      SpacedFront(c, g, es);
      TicksCount(c, g, es[..|es| - 1]);
    }
  }

  /** A reset forgets both the counter and the time of the last failover: the next tick may fail over at once. */
  lemma ResetForgets(c: Limits, g: Gate, now: int, e: Event)
    requires c.failLimit >= 0 && e.Tick? && e.others && e.completed && e.now >= c.failTime
    ensures Step(c, Step(c, g, ResetCounter(now, now)), e) == Gate(1, e.end)
  {
  }

  /** The limit is tested for equality: once the counter is past it only the time brake is left, and n
      completing ticks, each FailTime after the failover before it, add n. */
  lemma {:induction false} NoLimitAbove(c: Limits, g: Gate, es: seq<Event>)
    requires c.failLimit > 0 && g.ctr > c.failLimit && Spaced(c, g, es)
    requires forall i :: 0 <= i < |es| ==> es[i].Tick? && es[i].others && es[i].completed
    ensures Run(c, g, es).ctr == g.ctr + |es|
    ensures Run(c, g, es).ts == Stamp(g, es, |es|)
  {
    if es != [] {
      SpacedFront(c, g, es);
      NoLimitAbove(c, g, es[..|es| - 1]);
    }
  }

  /** Each event starts at least FailTime after the one before it ended; no FailTime asks for nothing. */
  predicate Spaced(c: Limits, g: Gate, es: seq<Event>) {
    c.failTime == 0 || forall i :: 0 <= i < |es| ==> es[i].now >= Stamp(g, es, i) + c.failTime
  }

  /** When the event before number i ended, or the time stamp at the start. */
  function Stamp(g: Gate, es: seq<Event>, i: nat): int
    requires i <= |es|
  {
    if i == 0 then g.ts else es[i - 1].end
  }

  /** A manual failover that completes while the counter stands at the limit. */
  predicate Lifts(c: Limits, g: Gate, es: seq<Event>, i: nat)
    requires i < |es|
  {
    es[i].Manual? && es[i].completed && Run(c, g, es[..i]).ctr == c.failLimit
  }

  predicate Bounded(c: Limits, g: Gate, es: seq<Event>, n: nat)
    requires n <= |es|
  {
    Run(c, g, es[..n]).ctr <= c.failLimit
  }

  lemma BoundedStep(c: Limits, g: Gate, es: seq<Event>, n: nat)
    requires c.failLimit > 0 && n < |es| && Bounded(c, g, es, n)
    ensures Bounded(c, g, es, n + 1) <==> !Lifts(c, g, es, n)
  {
    assert es[..n + 1][..n] == es[..n];
  }

  /** Any mix of ticks, switchovers, resets, observations and manual failovers: the counter stays at or below the
      limit all along exactly when no manual failover completes while it stands at the limit. */
  lemma BoundedIff(c: Limits, g: Gate, es: seq<Event>)
    requires c.failLimit > 0 && g.ctr <= c.failLimit
    ensures (forall n :: 0 <= n <= |es| ==> Bounded(c, g, es, n))
            <==> forall i :: 0 <= i < |es| ==> !Lifts(c, g, es, i)
  {
    var n := 0;
    while n < |es| && !Lifts(c, g, es, n)
      invariant 0 <= n <= |es|
      invariant forall i :: 0 <= i < n ==> !Lifts(c, g, es, i)
      invariant forall i :: 0 <= i <= n ==> Bounded(c, g, es, i)
    {
      BoundedStep(c, g, es, n);
      n := n + 1;
    }
    if n < |es| {
      BoundedStep(c, g, es, n);
      assert !Bounded(c, g, es, n + 1);
    }
  }

  /** Ticks, switchovers, resets and observations in any order: the counter never passes the limit. */
  lemma CounterBounded(c: Limits, g: Gate, es: seq<Event>)
    requires c.failLimit > 0 && g.ctr <= c.failLimit
    requires forall i :: 0 <= i < |es| ==> !es[i].Manual?
    ensures Run(c, g, es).ctr <= c.failLimit
  {
    BoundedIff(c, g, es);
    assert Bounded(c, g, es, |es|);
    assert es[..|es|] == es;
  }

  /** One manual failover at the limit is enough to lift it. */
  lemma ManualLiftsTheLimit(c: Limits, now: int, end: int)
    requires c.failLimit > 0
    ensures Run(c, Gate(c.failLimit, 0), [Manual(now, true, end)]).ctr > c.failLimit
  {
    var es := [Manual(now, true, end)];
    assert es[..0] == [] && Run(c, Gate(c.failLimit, 0), []) == Gate(c.failLimit, 0);
  }

  /** Time does not run backwards, within an event or from one to the next. */
  predicate Monotone(es: seq<Event>) {
    && (forall i :: 0 <= i < |es| ==> es[i].now <= es[i].end)
    && (forall i, j :: 0 <= i < j < |es| ==> es[i].end <= es[j].now)
  }

  lemma {:induction false} StampKept(c: Limits, g: Gate, es: seq<Event>, i: nat, n: nat)
    requires i < n <= |es| && Monotone(es) && forall k :: 0 <= k < |es| ==> !es[k].ResetCounter?
    requires Counts(c, Run(c, g, es[..i]), es[i])
    ensures Run(c, g, es[..n]).ts >= es[i].end
    decreases n
  {
    assert es[..n][..n - 1] == es[..n - 1];
    if n > i + 1 {
      StampKept(c, g, es, i, n - 1);
    }
  }

  /** An automatic failover starts no sooner than FailTime after any earlier failover completed. */
  lemma FailoversSpaced(c: Limits, g: Gate, es: seq<Event>, i: nat, j: nat)
    requires i < j < |es| && Monotone(es) && forall k :: 0 <= k < |es| ==> !es[k].ResetCounter?
    requires Counts(c, Run(c, g, es[..i]), es[i])
    requires Fires(c, Run(c, g, es[..j]), es[j])
    ensures es[j].now >= es[i].end + c.failTime
  {
    StampKept(c, g, es, i, j);
  }
}
