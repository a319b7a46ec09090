/** Replication delay statistics of one server: hourly buckets and a total that is
    maintained incrementally. */
module DelayStats {
  import opened Prelude

  /** A 64-bit float average over the reals. What a division by zero leaves is known by its dividend: an infinity of
      the dividend's sign, or no number (NaN) if that is 0. */
  datatype Avg = Finite(r: real) | OverZero(r: real)

  predicate IsNaN(a: Avg) { a.OverZero? && a.r == 0.0 }

  datatype DelayStat = DelayStat(avg: Avg, delays: int, errors: int, counter: int)

  datatype Bucket = Bucket(stat: DelayStat, hour: int)

  datatype Stats = Stats(total: DelayStat, rotated: DelayStat, current: DelayStat, hour: int, history: seq<Bucket>)

  const EMPTY: DelayStat := DelayStat(Finite(0.0), 0, 0, 0)

  // ---- Arithmetic on averages ----

  /** The dividend of an infinity times n: only signs matter. */
  function Scaled(r: real, n: int): real { if n == 0 then 0.0 else if n < 0 then -r else r }

  predicate Opposite(x: real, y: real) { (x < 0.0 < y) || (y < 0.0 < x) }

  function Weighted(d: DelayStat): Avg {
    if d.avg.OverZero? then OverZero(Scaled(d.avg.r, d.counter)) else Finite(d.avg.r * d.counter as real)
  }

  function Plus(a: Avg, s: int): Avg {
    if a.OverZero? then a else Finite(a.r + s as real)
  }

  function Minus(a: Avg, b: Avg): Avg {
    if b.Finite? then if a.OverZero? then a else Finite(a.r - b.r)
    else if a.Finite? then OverZero(-b.r)
    else OverZero(if Opposite(a.r, b.r) then a.r else 0.0)
  }

  function Over(a: Avg, n: int): Avg {
    if a.OverZero? then OverZero(if n < 0 then -a.r else a.r)
    else if n == 0 then OverZero(a.r)
    else Finite(a.r / n as real)
  }

  function Late(s: int): int { if s > 0 then 1 else 0 }

  // ---- What each update does ----

  function AddSample(d: DelayStat, s: int): DelayStat {
    DelayStat(Over(Plus(Weighted(d), s), d.counter + 1), d.delays + Late(s), d.errors, d.counter + 1)
  }

  function AddError(d: DelayStat): DelayStat {
    d.(errors := d.errors + 1, counter := d.counter + 1)
  }

  function Fresh(hour: int): Stats {
    Stats(EMPTY, EMPTY, EMPTY, hour, [Bucket(EMPTY, hour)])
  }

  /** The buckets that stay when a new hour starts. */
  function Kept<T>(history: seq<T>, limit: int): seq<T>
    requires limit >= 1
  {
    if |history| >= limit then history[|history| - limit + 1..] else history
  }

  /** A total with one bucket taken out and one sample put in. */
  function RotateSample(total: DelayStat, oldest: DelayStat, s: int): DelayStat {
    var n := total.counter + 1 - oldest.counter;
    DelayStat(Over(Plus(Minus(Weighted(total), Weighted(oldest)), s), n),
              total.delays + Late(s) - oldest.delays, total.errors, n)
  }

  function RotateDelay(st: Stats, s: int, limit: int, hour: int): Stats
    requires limit >= 1 && st.history != []
  {
    var oldest := st.history[0].stat;
    var current := AddSample(EMPTY, s);
    Stats(RotateSample(st.total, oldest, s), oldest, current, hour, Kept(st.history, limit) + [Bucket(current, hour)])
  }

  function ExtendDelay(st: Stats, s: int): Stats
    requires st.history != []
  {
    var current := AddSample(st.current, s);
    var n := |st.history| - 1;
    st.(total := AddSample(st.total, s), current := current,
        history := st.history[n := st.history[n].(stat := current)])
  }

  function RotateError(st: Stats, limit: int, hour: int): Stats
    requires limit >= 1 && st.history != []
  {
    var oldest := st.history[0].stat;
    var current := AddError(EMPTY);
    Stats(st.total.(counter := st.total.counter + 1 - oldest.counter, errors := st.total.errors + 1 - oldest.errors),
          oldest, current, hour, Kept(st.history, limit) + [Bucket(current, hour)])
  }

  function ExtendError(st: Stats): Stats
    requires st.history != []
  {
    var current := AddError(st.current);
    var n := |st.history| - 1;
    st.(total := AddError(st.total), current := current,
        history := st.history[n := st.history[n].(stat := current)])
  }

  /** One monitoring update: the hour is read once for the test and once more by a reset. */
  datatype Event = Delay(sample: int, check: int, reset: int) | Error(check: int, reset: int)

  function Step(st: Stats, limit: int, e: Event): Stats
    requires limit >= 1 && st.history != []
  {
    match e
    case Delay(s, check, reset) => if check != st.hour then RotateDelay(st, s, limit, reset) else ExtendDelay(st, s)
    case Error(check, reset) => if check != st.hour then RotateError(st, limit, reset) else ExtendError(st)
  }

  function Run(st: Stats, limit: int, events: seq<Event>): (r: Stats)
    requires limit >= 1 && st.history != []
    ensures r.history != []
    decreases |events|, 0
  {
    if events == [] then st else Step(RunFront(st, limit, events), limit, events[|events| - 1])
  }

  /** The state before the last update of a run. */
  function RunFront(st: Stats, limit: int, events: seq<Event>): (r: Stats)
    requires limit >= 1 && st.history != [] && events != []
    ensures r.history != []
    decreases |events| - 1, 1
  {
    Run(st, limit, events[..|events| - 1])
  }

  // ---- The object that the monitor updates in place ----

  class ServerDelayStat {
    var total: DelayStat
    var rotated: DelayStat
    var current: DelayStat
    var currentHour: int
    var delayHistory: seq<Bucket>

    ghost function View(): Stats
      reads this
    {
      Stats(total, rotated, current, currentHour, delayHistory)
    }

    constructor (hour: int)
      ensures View() == Fresh(hour)
    {
      total, rotated, current, currentHour := EMPTY, EMPTY, EMPTY, hour;
      delayHistory := [Bucket(EMPTY, hour)];
    }

    method ResetCurrentStat(hour: int)
      modifies this
      ensures View() == old(View()).(current := EMPTY, hour := hour)
    {
      current := EMPTY;
      currentHour := hour;
    }

    method ResetDelayStat(hour: int)
      modifies this
      ensures View() == Fresh(hour)
    {
      ResetCurrentStat(hour);
      total := current;
      rotated := current;
      delayHistory := [Bucket(current, currentHour)];
    }

    method UpdateCurrentDelayStat(s: int)
      modifies this
      ensures View() == old(View()).(current := AddSample(old(current), s))
    {
      if s > 0 {
        current := current.(delays := current.delays + 1);
      }
      assert Weighted(current) == Weighted(old(current));
      current := current.(avg := Over(Plus(Weighted(current), s), current.counter + 1));
      current := current.(counter := current.counter + 1);
    }

    method UpdateDelayWithRotate(s: int, limit: int, hour: int)
      requires limit >= 1 && delayHistory != []
      modifies this
      ensures View() == RotateDelay(old(View()), s, limit, hour)
    {
      rotated := delayHistory[0].stat;
      if |delayHistory| >= limit {
        delayHistory := delayHistory[|delayHistory| - limit + 1..];
      }
      ResetCurrentStat(hour);
      UpdateCurrentDelayStat(s);
      delayHistory := delayHistory + [Bucket(current, currentHour)];

      UpdateTotalWithRotate(s);
    }

    method UpdateTotalWithRotate(s: int)
      modifies this`total
      ensures total == RotateSample(old(total), rotated, s)
    {
      var sum := Plus(Minus(Weighted(total), Weighted(rotated)), s);
      total := total.(avg := Over(sum, total.counter + 1 - rotated.counter));
      total := total.(counter := total.counter + 1 - rotated.counter);
      if s > 0 {
        total := total.(delays := total.delays + 1 - rotated.delays);
      } else {
        total := total.(delays := total.delays - rotated.delays);
      }
    }

    method UpdateDelayWithoutRotate(s: int)
      requires delayHistory != []
      modifies this
      ensures View() == ExtendDelay(old(View()), s)
    {
      UpdateCurrentDelayStat(s);
      var n := |delayHistory| - 1;
      delayHistory := delayHistory[n := delayHistory[n].(stat := current)];
      total := total.(avg := Over(Plus(Weighted(total), s), total.counter + 1));
      total := total.(counter := total.counter + 1);
      if s > 0 {
        total := total.(delays := total.delays + 1);
      }
    }

    method UpdateDelayStat(s: int, limit: int, check: int, reset: int)
      requires limit >= 1 && delayHistory != []
      modifies this
      ensures View() == Step(old(View()), limit, Delay(s, check, reset))
    {
      if check != currentHour {
        UpdateDelayWithRotate(s, limit, reset);
      } else {
        UpdateDelayWithoutRotate(s);
      }
    }

    method UpdateSlaveErrorStat(limit: int, check: int, reset: int)
      requires limit >= 1 && delayHistory != []
      modifies this
      ensures View() == Step(old(View()), limit, Error(check, reset))
    {
      if check != currentHour {
        rotated := delayHistory[0].stat;
        if |delayHistory| >= limit {
          delayHistory := delayHistory[|delayHistory| - limit + 1..];
        }
        ResetCurrentStat(reset);
        current := current.(errors := current.errors + 1, counter := current.counter + 1);
        delayHistory := delayHistory + [Bucket(current, currentHour)];
        total := total.(counter := total.counter + 1 - rotated.counter);
        total := total.(errors := total.errors + 1 - rotated.errors);
      } else {
        current := current.(errors := current.errors + 1, counter := current.counter + 1);
        var n := |delayHistory| - 1;
        delayHistory := delayHistory[n := delayHistory[n].(stat := current)];
        total := total.(errors := total.errors + 1, counter := total.counter + 1);
      }
    }
  }

  // ---- The window and its total: closed form over every run ----

  function CounterSum(h: seq<Bucket>): int {
    if h == [] then 0 else CounterSum(h[..|h| - 1]) + h[|h| - 1].stat.counter
  }

  lemma {:induction false} CounterSumHead(h: seq<Bucket>)
    requires h != []
    ensures CounterSum(h) == h[0].stat.counter + CounterSum(h[1..])
  {
    if |h| > 1 {
      var front := h[..|h| - 1];
      CounterSumHead(front);
      assert h[1..][..|h| - 2] == front[1..];
    } else {
      assert h[..0] == [] && h[1..] == [];
    }
  }

  /** The counter at which the first bucket closes: the updates before the first hour change. */
  function FirstClosing(hour: int, events: seq<Event>): (n: nat)
    ensures n <= |events|
  {
    if events == [] then 0 else
      var n := FirstClosing(hour, events[..|events| - 1]);
      if n == |events| - 1 && events[n].check == hour then n + 1 else n
  }

  /** n times c, by repeated addition. */
  function Times(n: nat, c: int): int {
    if n == 0 then 0 else Times(n - 1, c) + c
  }

  lemma {:induction false} TimesIsProduct(n: nat, c: int)
    ensures Times(n, c) == n * c
  {
    if n > 0 {
      TimesIsProduct(n - 1, c);
    }
  }

  /** State after a run, in terms of the first bucket's closing counter c:
      one full rotation per bucket beyond the first has wrongly subtracted c. */
  ghost predicate Accounted(st: Stats, limit: int, hour: int, n: nat, c: int) {
    && 1 <= |st.history| <= limit
    && st.current == st.history[|st.history| - 1].stat
    && st.total.counter == CounterSum(st.history) - Times(|st.history| - 1, c)
    && (|st.history| == 1 < limit ==> st.hour == hour && c == n == st.history[0].stat.counter)
    && (1 < |st.history| ==> c < n)
    && (1 < |st.history| < limit ==> st.history[0].stat.counter == c)
  }

  lemma AppendedSum(h: seq<Bucket>, b: Bucket)
    ensures CounterSum(h + [b]) == CounterSum(h) + b.stat.counter
  {
    assert (h + [b])[..|h|] == h;
  }

  lemma ExtendedSum(h: seq<Bucket>, d: DelayStat)
    requires h != [] && d.counter == h[|h| - 1].stat.counter + 1
    ensures CounterSum(h[|h| - 1 := h[|h| - 1].(stat := d)]) == CounterSum(h) + 1
  {
    assert h[|h| - 1 := h[|h| - 1].(stat := d)][..|h| - 1] == h[..|h| - 1];
  }

  lemma StepRotates(st: Stats, limit: int, e: Event)
    requires limit >= 1 && st.history != [] && e.check != st.hour
    ensures var next := Step(st, limit, e);
            && next.current.counter == 1
            && next.history == Kept(st.history, limit) + [Bucket(next.current, next.hour)]
            && next.total.counter == st.total.counter + 1 - st.history[0].stat.counter
  {
  }

  lemma StepExtends(st: Stats, limit: int, e: Event)
    requires limit >= 1 && st.history != [] && e.check == st.hour
    ensures var next := Step(st, limit, e);
            && next.current.counter == st.current.counter + 1 && next.hour == st.hour
            && next.history == st.history[|st.history| - 1 := st.history[|st.history| - 1].(stat := next.current)]
            && next.total.counter == st.total.counter + 1
  {
  }

  lemma AccountedRotate(st: Stats, next: Stats, limit: int, hour: int, n: nat, c: nat)
    requires limit >= 1 && c <= n && Accounted(st, limit, hour, n, c)
    requires next.current.counter == 1
    requires next.history == Kept(st.history, limit) + [Bucket(next.current, next.hour)]
    requires next.total.counter == st.total.counter + 1 - st.history[0].stat.counter
    ensures Accounted(next, limit, hour, n + 1, c)
    ensures limit == 1 ==> Accounted(next, limit, hour, n + 1, c + 1)
  {
    AppendedSum(Kept(st.history, limit), Bucket(next.current, next.hour));
    CounterSumHead(st.history);
    assert |st.history| < limit ==> st.history[0].stat.counter == c;
  }

  lemma AccountedExtend(st: Stats, next: Stats, limit: int, hour: int, n: nat, c: nat)
    requires limit >= 1 && c <= n && Accounted(st, limit, hour, n, c)
    requires next.current.counter == st.current.counter + 1 && next.hour == st.hour
    requires next.history == st.history[|st.history| - 1 := st.history[|st.history| - 1].(stat := next.current)]
    requires next.total.counter == st.total.counter + 1
    ensures Accounted(next, limit, hour, n + 1, if c == n && st.hour == hour then c + 1 else c)
  {
    ExtendedSum(st.history, next.current);
  }

  lemma AccountedStepRotate(st: Stats, limit: int, hour: int, n: nat, c: nat, e: Event)
    requires limit >= 1 && c <= n && Accounted(st, limit, hour, n, c) && e.check != st.hour
    ensures Accounted(Step(st, limit, e), limit, hour, n + 1, if c == n && e.check == hour then c + 1 else c)
  {
    StepRotates(st, limit, e);
    AccountedRotate(st, Step(st, limit, e), limit, hour, n, c);
  }

  lemma AccountedStepExtend(st: Stats, limit: int, hour: int, n: nat, c: nat, e: Event)
    requires limit >= 1 && c <= n && Accounted(st, limit, hour, n, c) && e.check == st.hour
    ensures Accounted(Step(st, limit, e), limit, hour, n + 1, if c == n && st.hour == hour then c + 1 else c)
  {
    StepExtends(st, limit, e);
    AccountedExtend(st, Step(st, limit, e), limit, hour, n, c);
  }

  lemma AccountedStep(st: Stats, limit: int, hour: int, n: nat, c: nat, e: Event)
    requires limit >= 1 && c <= n && Accounted(st, limit, hour, n, c)
    ensures Accounted(Step(st, limit, e), limit, hour, n + 1, if c == n && e.check == hour then c + 1 else c)
  {
    if e.check == st.hour {
      AccountedStepExtend(st, limit, hour, n, c, e);
    } else {
      AccountedStepRotate(st, limit, hour, n, c, e);
    }
  }

  lemma {:induction false} AccountedRun(hour: int, limit: int, events: seq<Event>)
    requires limit >= 1
    ensures Accounted(Run(Fresh(hour), limit, events), limit, hour, |events|, FirstClosing(hour, events))
  {
    if events == [] {
      assert CounterSum(Fresh(hour).history) == CounterSum([]) + 0;
    } else {
      var before := events[..|events| - 1];
      AccountedRun(hour, limit, before);
      var st := Run(Fresh(hour), limit, before);
      AccountedStep(st, limit, hour, |before|, FirstClosing(hour, before), events[|before|]);
    }
  }

  /** Rotations made while the window still had room. */
  function WarmRotations(hour: int, limit: int, events: seq<Event>): (n: nat)
    requires limit >= 1
  {
    if events == [] then 0 else
      var before := events[..|events| - 1];
      var st := Run(Fresh(hour), limit, before);
      WarmRotations(hour, limit, before)
      + if events[|before|].check != st.hour && |st.history| < limit then 1 else 0
  }

  lemma StepLength(st: Stats, limit: int, e: Event)
    requires limit >= 1 && 1 <= |st.history| <= limit
    ensures |Step(st, limit, e).history| == |st.history| + if e.check != st.hour && |st.history| < limit then 1 else 0
  {
  }

  lemma {:induction false} WarmRotationsAreBuckets(hour: int, limit: int, events: seq<Event>)
    requires limit >= 1
    ensures WarmRotations(hour, limit, events) == |Run(Fresh(hour), limit, events).history| - 1
  {
    if events != [] {
      var before := events[..|events| - 1];
      WarmRotationsAreBuckets(hour, limit, before);
      AccountedRun(hour, limit, before);
      StepLength(Run(Fresh(hour), limit, before), limit, events[|before|]);
    }
  }

  /** Every mix of delay and error updates and hour changes, from a reset: the total misses the
      first bucket's closing counter once for each rotation made while the window was not full. */
  lemma WindowClosedForm(hour: int, limit: int, events: seq<Event>)
    requires limit >= 1
    ensures var st := Run(Fresh(hour), limit, events);
            && 1 <= |st.history| <= limit
            && st.current == st.history[|st.history| - 1].stat
            && st.total.counter
               == CounterSum(st.history) - WarmRotations(hour, limit, events) * FirstClosing(hour, events)
  {
    AccountedRun(hour, limit, events);
    WarmRotationsAreBuckets(hour, limit, events);
    TimesIsProduct(WarmRotations(hour, limit, events), FirstClosing(hour, events));
  }

  /** Once an hour has changed the closing counter of the first bucket is settled. */
  lemma {:induction false} FirstClosingSettled(hour: int, events: seq<Event>, more: seq<Event>)
    requires FirstClosing(hour, events) < |events|
    ensures FirstClosing(hour, events + more) == FirstClosing(hour, events)
  {
    if more == [] {
      assert events + more == events;
    } else {
      var m := more[..|more| - 1];
      FirstClosingSettled(hour, events, m);
      assert (events + more)[..|events + more| - 1] == events + m;
    }
  }

  lemma {:induction false} FullStaysFull(st: Stats, limit: int, events: seq<Event>)
    requires limit >= 1 && |st.history| == limit
    ensures |Run(st, limit, events).history| == limit
  {
    if events != [] {
      FullStaysFull(st, limit, events[..|events| - 1]);
    }
  }

  lemma {:induction false} RunSplit(st: Stats, limit: int, events: seq<Event>, more: seq<Event>)
    requires limit >= 1 && st.history != []
    ensures Run(st, limit, events + more) == Run(Run(st, limit, events), limit, more)
  {
    if more == [] {
      assert events + more == events;
    } else {
      var m := more[..|more| - 1];
      RunSplit(st, limit, events, m);
      assert (events + more)[..|events + more| - 1] == events + m;
    }
  }

  function Gap(st: Stats): int { CounterSum(st.history) - st.total.counter }

  lemma FullGap(st: Stats, limit: int, hour: int, n: nat, c: int)
    requires Accounted(st, limit, hour, n, c) && |st.history| == limit
    ensures Gap(st) == Times(limit - 1, c)
  {
  }

  /** In the steady state the gap between the total and the window never changes again. */
  lemma DeficitIsConstant(hour: int, limit: int, events: seq<Event>, more: seq<Event>)
    requires limit >= 1 && |Run(Fresh(hour), limit, events).history| == limit
    ensures |Run(Fresh(hour), limit, events + more).history| == limit
    ensures Gap(Run(Fresh(hour), limit, events + more)) == Gap(Run(Fresh(hour), limit, events))
  {
    RunSplit(Fresh(hour), limit, events, more);
    FullStaysFull(Run(Fresh(hour), limit, events), limit, more);
    AccountedRun(hour, limit, events);
    FullGap(Run(Fresh(hour), limit, events), limit, hour, |events|, FirstClosing(hour, events));
    AccountedRun(hour, limit, events + more);
    FullGap(Run(Fresh(hour), limit, events + more), limit, hour, |events + more|, FirstClosing(hour, events + more));
    if limit > 1 {
      FirstClosingSettled(hour, events, more);
    }
  }

  lemma {:induction false} TimesPositive(n: nat, c: nat)
    ensures Times(n, c) > 0 <==> n > 0 && c > 0
    ensures Times(n, c) >= 0
  {
    if n > 0 {
      TimesPositive(n - 1, c);
    }
  }

  /** A full window's total counts its samples exactly when the first bucket closed empty
      (or the window is a single bucket). */
  lemma ExactIffFirstBucketEmpty(hour: int, limit: int, events: seq<Event>)
    requires limit >= 1 && |Run(Fresh(hour), limit, events).history| == limit
    ensures var st := Run(Fresh(hour), limit, events);
            st.total.counter == CounterSum(st.history) <==> limit == 1 || FirstClosing(hour, events) == 0
  {
    AccountedRun(hour, limit, events);
    var c := FirstClosing(hour, events);
    TimesPositive(limit - 1, c);
  }

  lemma RunAppend(st: Stats, limit: int, events: seq<Event>, e: Event)
    requires limit >= 1 && st.history != []
    ensures Run(st, limit, events + [e]) == Step(Run(st, limit, events), limit, e)
  {
    assert (events + [e])[..|events|] == events;
  }

  function ErrorSum(h: seq<Bucket>): int {
    if h == [] then 0 else ErrorSum(h[..|h| - 1]) + h[|h| - 1].stat.errors
  }

  function DelaySum(h: seq<Bucket>): int {
    if h == [] then 0 else DelaySum(h[..|h| - 1]) + h[|h| - 1].stat.delays
  }

  /** A rotation of one kind handles one of the two counts: what a full window drops of the other count stays in the
      total, and what a window with room keeps of its own count is taken out of the total. */
  function ErrorDrift(st: Stats, limit: int, e: Event): int
    requires st.history != []
  {
    if e.check == st.hour then 0
    else if |st.history| < limit then (if e.Delay? then 0 else -st.history[0].stat.errors)
    else if e.Delay? then st.history[0].stat.errors else 0
  }

  function DelayDrift(st: Stats, limit: int, e: Event): int
    requires st.history != []
  {
    if e.check == st.hour then 0
    else if |st.history| < limit then (if e.Delay? then -st.history[0].stat.delays else 0)
    else if e.Delay? then 0 else st.history[0].stat.delays
  }

  /** The drift of errors and of delays over a run from a reset. */
  function Drift(hour: int, limit: int, events: seq<Event>): (int, int)
    requires limit >= 1
  {
    if events == [] then (0, 0) else
      var before := events[..|events| - 1];
      var drift, st := Drift(hour, limit, before), Run(Fresh(hour), limit, before);
      (drift.0 + ErrorDrift(st, limit, events[|before|]), drift.1 + DelayDrift(st, limit, events[|before|]))
  }

  lemma {:induction false} CountSumsHead(h: seq<Bucket>)
    requires h != []
    ensures ErrorSum(h) == h[0].stat.errors + ErrorSum(h[1..])
    ensures DelaySum(h) == h[0].stat.delays + DelaySum(h[1..])
  {
    if |h| > 1 {
      CountSumsHead(h[..|h| - 1]);
      assert h[1..][..|h| - 2] == h[..|h| - 1][1..];
    }
  }

  lemma CountSumsAppend(h: seq<Bucket>, b: Bucket)
    ensures ErrorSum(h + [b]) == ErrorSum(h) + b.stat.errors && DelaySum(h + [b]) == DelaySum(h) + b.stat.delays
  {
    assert (h + [b])[..|h|] == h;
  }

  /** The counts of the buckets after one step. */
  lemma CountSumsStep(st: Stats, next: Stats, limit: int, rotate: bool)
    requires limit >= 1 && 1 <= |st.history| <= limit && st.current == st.history[|st.history| - 1].stat
    requires rotate ==> next.history == Kept(st.history, limit) + [Bucket(next.current, next.hour)]
    requires var n := |st.history| - 1;
             !rotate ==> next.history == st.history[n := st.history[n].(stat := next.current)]
    ensures var gone := if |st.history| < limit then EMPTY else st.history[0].stat;
            rotate ==>
              && ErrorSum(next.history) == ErrorSum(st.history) + next.current.errors - gone.errors
              && DelaySum(next.history) == DelaySum(st.history) + next.current.delays - gone.delays
    ensures !rotate ==>
              && ErrorSum(next.history) == ErrorSum(st.history) + next.current.errors - st.current.errors
              && DelaySum(next.history) == DelaySum(st.history) + next.current.delays - st.current.delays
  {
    if rotate {
      CountSumsAppend(Kept(st.history, limit), Bucket(next.current, next.hour));
      CountSumsHead(st.history);
    } else {
      var n := |st.history| - 1;
      assert next.history[..n] == st.history[..n];
    }
  }

  /** Errors and delays in the total are those of the buckets plus the drift, after every mix of updates. */
  lemma {:induction false} CountsWithDrift(hour: int, limit: int, events: seq<Event>)
    requires limit >= 1
    ensures var st := Run(Fresh(hour), limit, events);
            && st.total.errors == ErrorSum(st.history) + Drift(hour, limit, events).0
            && st.total.delays == DelaySum(st.history) + Drift(hour, limit, events).1
  {
    if events == [] {
      CountSumsAppend([], Bucket(EMPTY, hour));
      assert [] + [Bucket(EMPTY, hour)] == [Bucket(EMPTY, hour)];
    } else {
      var before := events[..|events| - 1];
      var st, e := Run(Fresh(hour), limit, before), events[|before|];
      CountsWithDrift(hour, limit, before);
      AccountedRun(hour, limit, before);
      DriftStep(st, limit, e);
      assert Run(Fresh(hour), limit, events) == Step(st, limit, e);
    }
  }

  lemma DriftStep(st: Stats, limit: int, e: Event)
    requires limit >= 1 && 1 <= |st.history| <= limit && st.current == st.history[|st.history| - 1].stat
    ensures var next := Step(st, limit, e);
            && next.total.errors - ErrorSum(next.history)
               == st.total.errors - ErrorSum(st.history) + ErrorDrift(st, limit, e)
            && next.total.delays - DelaySum(next.history)
               == st.total.delays - DelaySum(st.history) + DelayDrift(st, limit, e)
  {
    StepCounts(st, limit, e);
    CountSumsStep(st, Step(st, limit, e), limit, e.check != st.hour);
  }

  lemma StepCounts(st: Stats, limit: int, e: Event)
    requires limit >= 1 && st.history != []
    ensures var next := Step(st, limit, e);
            var s := if e.Delay? then Late(e.sample) else 0;
            var r := if e.Delay? then 0 else 1;
            && (e.check != st.hour ==>
                  && next.history == Kept(st.history, limit) + [Bucket(next.current, next.hour)]
                  && next.current.errors == r && next.current.delays == s
                  && next.total.errors == st.total.errors + r - (if e.Delay? then 0 else st.history[0].stat.errors)
                  && next.total.delays == st.total.delays + s - (if e.Delay? then st.history[0].stat.delays else 0))
            && (e.check == st.hour ==>
                  && next.history == st.history[|st.history| - 1 := st.history[|st.history| - 1].(stat := next.current)]
                  && next.current.errors == st.current.errors + r && next.current.delays == st.current.delays + s
                  && next.total.errors == st.total.errors + r && next.total.delays == st.total.delays + s)
  {
  }

  /** The hour changes that a run of updates meets. */
  function Rotations(st: Stats, limit: int, events: seq<Event>): (n: nat)
    requires limit >= 1 && st.history != []
  {
    if events == [] then 0 else
      var before := events[..|events| - 1];
      Rotations(st, limit, before) + if events[|before|].check != Run(st, limit, before).hour then 1 else 0
  }

  /** The errors of the buckets after r rotations of a full window by delay updates. */
  ghost predicate ErrorsShifted(h: seq<Bucket>, h': seq<Bucket>, r: nat) {
    |h'| == |h| && forall i :: 0 <= i < |h| ==> h'[i].stat.errors == if i + r < |h| then h[i + r].stat.errors else 0
  }

  lemma ShiftRotates(h: seq<Bucket>, h': seq<Bucket>, r: nat, b: Bucket)
    requires h != [] && ErrorsShifted(h, h', r) && b.stat.errors == 0
    ensures ErrorsShifted(h, h'[1..] + [b], r + 1)
  {
  }

  lemma ShiftExtends(h: seq<Bucket>, h': seq<Bucket>, r: nat, d: DelayStat)
    requires h != [] && ErrorsShifted(h, h', r) && d.errors == h'[|h| - 1].stat.errors
    ensures ErrorsShifted(h, h'[|h| - 1 := h'[|h| - 1].(stat := d)], r)
  {
  }

  /** One delay update of a full window. */
  lemma DelayStepShifts(h: seq<Bucket>, st: Stats, limit: int, e: Event, r: nat)
    requires limit >= 1 && |h| == limit && e.Delay? && ErrorsShifted(h, st.history, r)
    requires st.current == st.history[limit - 1].stat
    ensures var next := Step(st, limit, e);
            && ErrorsShifted(h, next.history, r + if e.check != st.hour then 1 else 0)
            && next.current == next.history[limit - 1].stat && next.total.errors == st.total.errors
  {
    var next := Step(st, limit, e);
    StepCounts(st, limit, e);
    if e.check != st.hour {
      ShiftRotates(h, st.history, r, Bucket(next.current, next.hour));
    } else {
      ShiftExtends(h, st.history, r, next.current);
    }
  }

  lemma {:induction false} DelayRunShifts(st: Stats, limit: int, events: seq<Event>)
    requires limit >= 1 && |st.history| == limit && st.current == st.history[limit - 1].stat
    requires forall i :: 0 <= i < |events| ==> events[i].Delay?
    ensures var st' := Run(st, limit, events);
            && ErrorsShifted(st.history, st'.history, Rotations(st, limit, events))
            && st'.current == st'.history[limit - 1].stat && st'.total.errors == st.total.errors
  {
    if events != [] {
      var before := events[..|events| - 1];
      DelayRunShifts(st, limit, before);
      DelayStepShifts(st.history, Run(st, limit, before), limit, events[|before|], Rotations(st, limit, before));
    }
  }

  lemma {:induction false} ShiftedSum(h: seq<Bucket>, h': seq<Bucket>, r: nat, n: nat)
    requires ErrorsShifted(h, h', r) && n <= |h|
    ensures ErrorSum(h'[..n]) == ErrorSum(h[Min(r, |h|)..Min(r + n, |h|)])
  {
    var k, m := Min(r, |h|), Min(r + n, |h|);
    if n > 0 {
      ShiftedSum(h, h', r, n - 1);
      assert h'[..n][..n - 1] == h'[..n - 1];
      if r + n <= |h| {
        assert h[k..m][..n - 1] == h[k..m - 1];
      }
    }
  }

  lemma {:induction false} ErrorSumSplit(h: seq<Bucket>, k: nat)
    requires k <= |h|
    ensures ErrorSum(h) == ErrorSum(h[..k]) + ErrorSum(h[k..])
    decreases |h|
  {
    if k == |h| {
      assert h[..k] == h && h[k..] == [];
    } else {
      var front := h[..|h| - 1];
      ErrorSumSplit(front, k);
      assert front[..k] == h[..k] && h[k..][..|h| - k - 1] == front[k..];
    }
  }

  /** On a full window delay updates leave in the total exactly the errors of the buckets they drop: after r hour
      changes, those of the first r. */
  lemma DroppedErrorsStay(st: Stats, limit: int, events: seq<Event>)
    requires limit >= 1 && |st.history| == limit && st.current == st.history[limit - 1].stat
    requires st.total.errors == ErrorSum(st.history) && forall i :: 0 <= i < |events| ==> events[i].Delay?
    ensures var st', dropped := Run(st, limit, events), Min(Rotations(st, limit, events), limit);
            st'.total.errors == ErrorSum(st'.history) + ErrorSum(st.history[..dropped])
  {
    DelayRunShifts(st, limit, events);
    ShiftedTotal(st.history, Run(st, limit, events).history, Rotations(st, limit, events));
  }

  lemma ShiftedTotal(h: seq<Bucket>, h': seq<Bucket>, r: nat)
    requires ErrorsShifted(h, h', r)
    ensures ErrorSum(h) == ErrorSum(h') + ErrorSum(h[..Min(r, |h|)])
  {
    ShiftedSum(h, h', r, |h|);
    assert h'[..|h|] == h';
    ErrorSumSplit(h, Min(r, |h|));
    assert h[Min(r, |h|)..|h|] == h[Min(r, |h|)..];
  }

  // ---- When the average stays finite ----

  /** Buckets hold counts and averages; every bucket after the first, and the first if it closed with an update,
      has been updated. */
  ghost predicate Filled(st: Stats, n: nat, c: nat) {
    && st.history != [] && st.current == st.history[|st.history| - 1].stat
    && (forall i :: 0 <= i < |st.history| ==> st.history[i].stat.avg.Finite? && st.history[i].stat.counter >= 0)
    && (forall i :: 0 <= i < |st.history| && (i > 0 || c > 0) ==> st.history[i].stat.counter >= 1)
    && (n > 0 ==> st.current.counter >= 1)
  }

  lemma CurrentFilled(st: Stats, limit: int, e: Event)
    requires limit >= 1 && st.history != [] && st.current.avg.Finite? && st.current.counter >= 0
    ensures Step(st, limit, e).current.avg.Finite? && Step(st, limit, e).current.counter >= 1
  {
  }

  lemma FilledRotate(st: Stats, next: Stats, limit: int, hour: int, n: nat, c: nat)
    requires limit >= 1 && Filled(st, n, c) && Accounted(st, limit, hour, n, c)
    requires next.current.avg.Finite? && next.current.counter >= 1
    requires next.history == Kept(st.history, limit) + [Bucket(next.current, next.hour)]
    ensures Filled(next, n + 1, c) && (limit == 1 ==> Filled(next, n + 1, c + 1))
  {
  }

  lemma FilledExtend(st: Stats, next: Stats, limit: int, hour: int, n: nat, c: nat)
    requires limit >= 1 && Filled(st, n, c) && Accounted(st, limit, hour, n, c)
    requires next.current.avg.Finite? && next.current.counter >= 1
    requires next.history == st.history[|st.history| - 1 := st.history[|st.history| - 1].(stat := next.current)]
    ensures Filled(next, n + 1, c) && (c == n ==> Filled(next, n + 1, c + 1))
  {
  }

  lemma FilledStep(st: Stats, limit: int, hour: int, n: nat, c: nat, e: Event)
    requires limit >= 1 && c <= n && Filled(st, n, c) && Accounted(st, limit, hour, n, c)
    ensures Filled(Step(st, limit, e), n + 1, if c == n && e.check == hour then c + 1 else c)
  {
    CurrentFilled(st, limit, e);
    if e.check != st.hour {
      StepRotates(st, limit, e);
      FilledRotate(st, Step(st, limit, e), limit, hour, n, c);
    } else {
      StepExtends(st, limit, e);
      FilledExtend(st, Step(st, limit, e), limit, hour, n, c);
    }
  }

  lemma {:induction false} FilledRun(hour: int, limit: int, events: seq<Event>)
    requires limit >= 1
    ensures Filled(Run(Fresh(hour), limit, events), |events|, FirstClosing(hour, events))
  {
    if events != [] {
      var before := events[..|events| - 1];
      var st := Run(Fresh(hour), limit, before);
      FilledRun(hour, limit, before);
      AccountedRun(hour, limit, before);
      FilledStep(st, limit, hour, |before|, FirstClosing(hour, before), events[|before|]);
    }
  }

  lemma {:induction false} CounterSumAtLeast(h: seq<Bucket>)
    requires forall i :: 0 < i < |h| ==> h[i].stat.counter >= 1
    ensures h != [] ==> CounterSum(h) >= h[0].stat.counter + |h| - 1
  {
    if |h| > 1 {
      CounterSumAtLeast(h[..|h| - 1]);
    } else if h != [] {
      assert h[..0] == [];
    }
  }

  lemma {:induction false} TimesBounds(n: nat, c: nat)
    ensures c <= 1 ==> Times(n, c) <= n
    ensures c >= 2 ==> Times(n, c) >= 2 * n
    ensures c == 0 ==> Times(n, c) == 0
  {
    if n > 0 {
      TimesBounds(n - 1, c);
    }
  }

  /** With one bucket, or a first bucket that closed with at most one update, every update leaves a positive total. */
  lemma TotalPositive(hour: int, limit: int, events: seq<Event>)
    requires limit >= 1 && events != [] && (limit == 1 || FirstClosing(hour, events) <= 1)
    ensures Run(Fresh(hour), limit, events).total.counter >= 1
  {
    var st, c := Run(Fresh(hour), limit, events), FirstClosing(hour, events);
    AccountedRun(hour, limit, events);
    FilledRun(hour, limit, events);
    CounterSumAtLeast(st.history);
    TimesBounds(|st.history| - 1, c);
  }

  lemma FiniteStep(st: Stats, limit: int, e: Event)
    requires limit >= 1 && st.history != [] && st.total.avg.Finite? && st.history[0].stat.avg.Finite?
    requires Step(st, limit, e).total.counter != 0
    ensures Step(st, limit, e).total.avg.Finite?
  {
  }

  lemma {:induction false} FiniteRun(hour: int, limit: int, events: seq<Event>)
    requires limit >= 1 && (limit == 1 || FirstClosing(hour, events) <= 1)
    ensures Run(Fresh(hour), limit, events).total.avg.Finite?
  {
    if events != [] {
      var before := events[..|events| - 1];
      FiniteRun(hour, limit, before);
      FilledRun(hour, limit, before);
      TotalPositive(hour, limit, events);
      FiniteStep(Run(Fresh(hour), limit, before), limit, events[|before|]);
    }
  }

  /** The last k buckets hold one update each. */
  ghost predicate Single(h: seq<Bucket>, k: int) {
    forall i :: 0 <= i < |h| && i >= |h| - k ==> h[i].stat.counter == 1
  }

  lemma SampleIn(hour: int) returns (e: Event)
    ensures e.Delay? && e.check == e.reset == hour
  {
    e := Delay(0, hour, hour);
  }

  /** A sample in the next hour. */
  lemma NextHour(st: Stats, limit: int, e: Event, k: nat)
    requires limit >= 1 && 1 <= |st.history| <= limit && Single(st.history, k) && e.Delay? && e.check != st.hour
    ensures var r := Step(st, limit, e);
            && |r.history| == Min(|st.history| + 1, limit) && Single(r.history, k + 1)
            && (r.total.counter == 0 ==> !r.total.avg.Finite?)
  {
    StepRotates(st, limit, e);
  }

  /** One sample in each of the next k hours. */
  lemma {:induction false} OnePerHour(st: Stats, limit: int, k: nat) returns (more: seq<Event>)
    requires limit >= 1 && 1 <= |st.history| <= limit
    ensures var r := Run(st, limit, more);
            && |r.history| == Min(|st.history| + k, limit) && Single(r.history, k)
            && (k > 0 && r.total.counter == 0 ==> !r.total.avg.Finite?)
    ensures |more| == k && (k > 0 ==> more[0].check == st.hour + 1)
  {
    more := [];
    if k > 0 {
      var before := OnePerHour(st, limit, k - 1);
      var mid := Run(st, limit, before);
      var e := SampleIn(mid.hour + 1);
      NextHour(mid, limit, e, k - 1);
      more := before + [e];
      RunAppend(st, limit, before, e);
    }
  }

  /** Samples in the current hour until the total has climbed to zero. */
  lemma {:induction false} UpToZero(st: Stats, limit: int, m: nat) returns (more: seq<Event>)
    requires limit >= 1 && st.history != [] && st.total.counter + m == 0 && m > 0
    ensures !Run(st, limit, more).total.avg.Finite?
    decreases m
  {
    var e := SampleIn(st.hour);
    var next := Step(st, limit, e);
    RunAppend(st, limit, [], e);
    assert [] + [e] == [e];
    if m == 1 {
      more := [e];
    } else {
      var rest := UpToZero(next, limit, m - 1);
      more := [e] + rest;
      RunSplit(st, limit, [e], rest);
    }
  }

  lemma {:induction false} SingleSum(h: seq<Bucket>)
    requires Single(h, |h|)
    ensures CounterSum(h) == |h|
  {
    if h != [] {
      SingleSum(h[..|h| - 1]);
    }
  }

  /** When another hour follows, the first bucket's closing counter stays what it is. */
  lemma FirstClosingKept(hour: int, events: seq<Event>, e: Event, more: seq<Event>)
    requires FirstClosing(hour, events) == |events| ==> e.check != hour
    ensures FirstClosing(hour, events + ([e] + more)) == FirstClosing(hour, events)
  {
    var one := events + [e];
    assert one[..|events|] == events;
    FirstClosingSettled(hour, one, more);
    assert one + more == events + ([e] + more);
  }

  lemma OpenBucketHour(st: Stats, limit: int, hour: int, n: nat, c: nat)
    requires limit >= 2 && Accounted(st, limit, hour, n, c) && c == n
    ensures st.hour == hour
  {
  }

  /** Once every bucket holds one update the total is used up. */
  lemma TotalUsedUp(st: Stats, limit: int, hour: int, n: nat, c: nat)
    requires limit >= 2 && c >= 2 && Accounted(st, limit, hour, n, c)
    requires |st.history| == limit && Single(st.history, limit)
    ensures st.total.counter <= 0
  {
    SingleSum(st.history);
    TimesBounds(limit - 1, c);
  }

  lemma Drained(hour: int, limit: int, events: seq<Event>) returns (more: seq<Event>)
    requires limit >= 2 && FirstClosing(hour, events) >= 2
    ensures var total := Run(Fresh(hour), limit, events + more).total;
            total.counter <= 0 && (total.counter == 0 ==> !total.avg.Finite?)
  {
    AccountedRun(hour, limit, events);
    more := OnePerHour(Run(Fresh(hour), limit, events), limit, limit);
    RunSplit(Fresh(hour), limit, events, more);
    if FirstClosing(hour, events) == |events| {
      OpenBucketHour(Run(Fresh(hour), limit, events), limit, hour, |events|, FirstClosing(hour, events));
    }
    FirstClosingKept(hour, events, more[0], more[1..]);
    assert more == [more[0]] + more[1..];
    AccountedRun(hour, limit, events + more);
    var st := Run(Fresh(hour), limit, events + more);
    TotalUsedUp(st, limit, hour, |events + more|, FirstClosing(hour, events));
  }

  /** With two buckets or more, every run whose first bucket took two updates goes on to a division by zero. */
  lemma DividesByZero(hour: int, limit: int, events: seq<Event>) returns (more: seq<Event>)
    requires limit >= 2 && FirstClosing(hour, events) >= 2
    ensures !Run(Fresh(hour), limit, events + more).total.avg.Finite?
  {
    var first := Drained(hour, limit, events);
    var rest := ToZero(hour, limit, events + first);
    more := first + rest;
    assert events + first + rest == events + more;
  }

  lemma ToZero(hour: int, limit: int, events: seq<Event>) returns (more: seq<Event>)
    requires limit >= 1
    requires var total := Run(Fresh(hour), limit, events).total;
             total.counter <= 0 && (total.counter == 0 ==> !total.avg.Finite?)
    ensures !Run(Fresh(hour), limit, events + more).total.avg.Finite?
  {
    more := ClimbToZero(Run(Fresh(hour), limit, events), limit);
    RunSplit(Fresh(hour), limit, events, more);
  }

  lemma ClimbToZero(st: Stats, limit: int) returns (more: seq<Event>)
    requires limit >= 1 && st.history != [] && st.total.counter <= 0
    requires st.total.counter == 0 ==> !st.total.avg.Finite?
    ensures !Run(st, limit, more).total.avg.Finite?
  {
    if st.total.counter == 0 {
      more := [];
    } else {
      more := UpToZero(st, limit, -st.total.counter);
    }
  }

  /** The average is finite however the run goes on exactly when the window is one bucket or the first bucket has
      closed with at most one update. */
  lemma FiniteForeverIff(hour: int, limit: int, events: seq<Event>)
    requires limit >= 1
    ensures (forall more :: Run(Fresh(hour), limit, events + more).total.avg.Finite?)
            <==> limit == 1 || (FirstClosing(hour, events) <= 1 && FirstClosing(hour, events) < |events|)
  {
    if limit == 1 || (FirstClosing(hour, events) <= 1 && FirstClosing(hour, events) < |events|) {
      forall more ensures Run(Fresh(hour), limit, events + more).total.avg.Finite? {
        if limit > 1 {
          FirstClosingSettled(hour, events, more);
        }
        FiniteRun(hour, limit, events + more);
      }
    } else {
      var more := BreaksSomehow(hour, limit, events);
      assert !Run(Fresh(hour), limit, events + more).total.avg.Finite?;
    }
  }

  lemma FirstClosingGrows(hour: int, events: seq<Event>, e: Event)
    requires FirstClosing(hour, events) == |events| && e.check == hour
    ensures FirstClosing(hour, events + [e]) == |events + [e]|
  {
    assert (events + [e])[..|events|] == events;
  }

  lemma BreaksSomehow(hour: int, limit: int, events: seq<Event>) returns (more: seq<Event>)
    requires limit >= 2 && (FirstClosing(hour, events) >= 2 || FirstClosing(hour, events) == |events|)
    ensures !Run(Fresh(hour), limit, events + more).total.avg.Finite?
  {
    if FirstClosing(hour, events) >= 2 {
      more := DividesByZero(hour, limit, events);
    } else {
      var e := SampleIn(hour);
      var two := events + [e] + [e];
      FirstClosingGrows(hour, events, e);
      FirstClosingGrows(hour, events + [e], e);
      var rest := DividesByZero(hour, limit, two);
      more := [e, e] + rest;
      assert two + rest == events + more;
    }
  }

  /** Two samples in the first hour and one in each of the next two: whatever the window, the total is divided by
      zero, which leaves no number if both pairs of samples have the same sum and an infinity otherwise. */
  lemma FourSamplesDivideByZero(limit: int, a: int, b: int, c: int, d: int)
    requires limit >= 2
    ensures var st := Run(Fresh(0), limit, [Delay(a, 0, 0), Delay(b, 0, 0), Delay(c, 1, 1), Delay(d, 2, 2)]);
            && st.total.counter == 0
            && st.total.avg == OverZero((c + d - a - b) as real)
  {
    var e0, e1, e2, e3 := Delay(a, 0, 0), Delay(b, 0, 0), Delay(c, 1, 1), Delay(d, 2, 2);
    var s0 := Fresh(0);
    var s2 := Step(Step(s0, limit, e0), limit, e1);
    assert s2.total == s2.history[0].stat && s2.total.counter == 2 && |s2.history| == 1;
    assert Weighted(s2.total) == Finite((a + b) as real);
    var s3 := Step(s2, limit, e2);
    assert s3.total.avg == Finite(c as real) && s3.total.counter == 1;
    assert s3.history[0] == s2.history[0] && |s3.history| == 2;
    assert Run(s0, limit, []) == s0;
    RunAppend(s0, limit, [], e0);
    RunAppend(s0, limit, [e0], e1);
    RunAppend(s0, limit, [e0, e1], e2);
    RunAppend(s0, limit, [e0, e1, e2], e3);
    assert [] + [e0] == [e0] && [e0] + [e1] == [e0, e1] && [e0, e1] + [e2] == [e0, e1, e2];
    assert [e0, e1, e2] + [e3] == [e0, e1, e2, e3];
  }

  /** An infinity left by a division by zero lasts until the next sample, after which there is no number. */
  lemma InfiniteThenNaN(st: Stats, limit: int, e: Event)
    requires limit >= 1 && st.history != [] && e.Delay? && st.total.avg.OverZero? && st.total.counter == 0
    ensures IsNaN(Step(st, limit, e).total.avg)
  {
  }

  /** No number never becomes one again. */
  lemma {:induction false} NaNStays(st: Stats, limit: int, events: seq<Event>)
    requires limit >= 1 && st.history != [] && IsNaN(st.total.avg)
    ensures IsNaN(Run(st, limit, events).total.avg)
  {
    if events != [] {
      NaNStays(st, limit, events[..|events| - 1]);
    }
  }

  /** An average that is not finite stays so for the rest of the run. */
  lemma {:induction false} NotFiniteStays(st: Stats, limit: int, events: seq<Event>)
    requires limit >= 1 && st.history != [] && !st.total.avg.Finite?
    ensures !Run(st, limit, events).total.avg.Finite?
  {
    if events != [] {
      NotFiniteStays(st, limit, events[..|events| - 1]);
    }
  }

  /** Delay updates never take an error out of the total, whatever leaves the window. */
  lemma {:induction false} DelayUpdatesKeepErrors(st: Stats, limit: int, events: seq<Event>)
    requires limit >= 1 && st.history != []
    requires forall i :: 0 <= i < |events| ==> events[i].Delay?
    ensures Run(st, limit, events).total.errors == st.total.errors
  {
    if events != [] {
      DelayUpdatesKeepErrors(st, limit, events[..|events| - 1]);
    }
  }

  // ---- What errors do to the averages ----

  predicate AllErrors(events: seq<Event>) { forall i :: 0 <= i < |events| ==> events[i].Error? }

  /** Error updates never change the average of the total. */
  lemma {:induction false} ErrorsKeepAverage(st: Stats, limit: int, events: seq<Event>)
    requires limit >= 1 && st.history != [] && AllErrors(events)
    ensures Run(st, limit, events).total.avg == st.total.avg && Run(st, limit, events).total.delays == st.total.delays
  {
    if events != [] {
      ErrorsKeepAverage(st, limit, events[..|events| - 1]);
    }
  }

  /** In the same hour they keep the current bucket's average too, and raise all three counters by one each. */
  lemma {:induction false} SameHourErrors(st: Stats, limit: int, events: seq<Event>)
    requires limit >= 1 && st.history != [] && AllErrors(events)
    requires forall i :: 0 <= i < |events| ==> events[i].check == st.hour
    ensures var r := Run(st, limit, events);
            && r.hour == st.hour && r.total.avg == st.total.avg && r.current.avg == st.current.avg
            && r.total.counter == st.total.counter + |events| && r.current.counter == st.current.counter + |events|
            && r.total.errors == st.total.errors + |events| && r.current.errors == st.current.errors + |events|
  {
    if events != [] {
      SameHourErrors(st, limit, events[..|events| - 1]);
    }
  }

  /** An error in a new hour starts a bucket of its own: one error, average 0. */
  lemma NewHourError(st: Stats, limit: int, e: Event)
    requires limit >= 1 && st.history != [] && e.Error? && e.check != st.hour
    ensures var r := Step(st, limit, e);
            && r.current == DelayStat(Finite(0.0), 0, 1, 1) && r.hour == e.reset
            && r.history[|r.history| - 1] == Bucket(r.current, e.reset)
  {
  }

  /** A later sample takes each error for a sample of average size: after m errors on n samples of average a it leaves
      (a * (n + m) + s) / (n + m + 1). */
  lemma ErrorsWeighAsSamples(st: Stats, limit: int, errors: seq<Event>, e: Event)
    requires limit >= 1 && st.history != [] && AllErrors(errors) && st.total.avg.Finite? && st.total.counter >= 0
    requires (forall i :: 0 <= i < |errors| ==> errors[i].check == st.hour) && e.Delay? && e.check == st.hour
    ensures var n := st.total.counter + |errors|;
            Run(st, limit, errors + [e]).total.avg
            == Finite((st.total.avg.r * n as real + e.sample as real) / (n + 1) as real)
  {
    SameHourErrors(st, limit, errors);
    RunAppend(st, limit, errors, e);
  }

  /** The bucket set aside by a run is the oldest one before its last hour change. */
  lemma RotatedIsOldest(st: Stats, limit: int, events: seq<Event>, e: Event)
    requires limit >= 1 && st.history != []
    ensures var before := Run(st, limit, events);
            Run(st, limit, events + [e]).rotated
            == if e.check != before.hour then before.history[0].stat else before.rotated
  {
    RunAppend(st, limit, events, e);
  }

  // ---- The incremental total refines recomputing everything from raw samples ----

  datatype RawBucket = RawBucket(samples: seq<int>, hour: int)

  function Sum(xs: seq<int>): int {
    if xs == [] then 0 else Sum(xs[..|xs| - 1]) + xs[|xs| - 1]
  }

  function Positives(xs: seq<int>): int {
    if xs == [] then 0 else Positives(xs[..|xs| - 1]) + if xs[|xs| - 1] > 0 then 1 else 0
  }

  function Flatten(win: seq<RawBucket>): seq<int> {
    if win == [] then [] else win[0].samples + Flatten(win[1..])
  }

  /** Mean, number of positive samples and number of samples. */
  function Summarize(xs: seq<int>): DelayStat {
    DelayStat(Finite(if xs == [] then 0.0 else Sum(xs) as real / |xs| as real), Positives(xs), 0, |xs|)
  }

  function Buckets(win: seq<RawBucket>): (h: seq<Bucket>)
    ensures |h| == |win|
    ensures forall i :: 0 <= i < |h| ==> h[i] == Bucket(Summarize(win[i].samples), win[i].hour)
  {
    seq(|win|, i requires 0 <= i < |win| => Bucket(Summarize(win[i].samples), win[i].hour))
  }

  function Summary(win: seq<RawBucket>, rotated: DelayStat): Stats
    requires win != []
  {
    var last := win[|win| - 1];
    Stats(Summarize(Flatten(win)), rotated, Summarize(last.samples), last.hour,
          Buckets(win))
  }

  function StepWindow(win: seq<RawBucket>, limit: int, e: Event): (r: seq<RawBucket>)
    requires limit >= 1 && win != [] && e.Delay?
    ensures r != []
  {
    var last := win[|win| - 1];
    if e.check != last.hour then Kept(win, limit) + [RawBucket([e.sample], e.reset)]
    else win[|win| - 1 := last.(samples := last.samples + [e.sample])]
  }

  ghost predicate AllDelays(events: seq<Event>) { forall i :: 0 <= i < |events| ==> events[i].Delay? }

  ghost function RunWindow(win: seq<RawBucket>, limit: int, events: seq<Event>): (r: seq<RawBucket>)
    requires limit >= 1 && win != [] && AllDelays(events)
    ensures r != []
    decreases |events|, 0
  {
    if events == [] then win else StepWindow(WindowFront(win, limit, events), limit, events[|events| - 1])
  }

  ghost function WindowFront(win: seq<RawBucket>, limit: int, events: seq<Event>): (r: seq<RawBucket>)
    requires limit >= 1 && win != [] && events != [] && AllDelays(events)
    ensures r != []
    decreases |events| - 1, 1
  {
    RunWindow(win, limit, events[..|events| - 1])
  }

  /** Full, or still growing behind a first bucket that closed empty. */
  predicate Settled(win: seq<RawBucket>, limit: int) {
    1 <= |win| <= limit && (|win| == limit || (|win| >= 2 && win[0].samples == []))
  }

  lemma {:induction false} SumAppend(a: seq<int>, b: seq<int>)
    ensures Sum(a + b) == Sum(a) + Sum(b)
    ensures Positives(a + b) == Positives(a) + Positives(b)
  {
    if b == [] {
      assert a + b == a;
    } else {
      var b' := b[..|b| - 1];
      SumAppend(a, b');
      assert (a + b)[..|a + b| - 1] == a + b';
    }
  }

  lemma Associative(x: seq<int>, y: seq<int>, z: seq<int>)
    ensures x + (y + z) == (x + y) + z
  {
  }

  lemma {:induction false} FlattenAppend(a: seq<RawBucket>, b: seq<RawBucket>)
    ensures Flatten(a + b) == Flatten(a) + Flatten(b)
  {
    if a == [] {
      assert a + b == b;
    } else {
      FlattenAppend(a[1..], b);
      assert (a + b)[1..] == a[1..] + b && (a + b)[0] == a[0];
      Associative(a[0].samples, Flatten(a[1..]), Flatten(b));
    }
  }

  lemma QuotientTimes(x: real, n: int)
    requires n != 0
    ensures x / n as real * n as real == x
  {
  }

  lemma WeightedIsSum(xs: seq<int>)
    ensures Weighted(Summarize(xs)) == Finite(Sum(xs) as real)
  {
    if xs != [] {
      QuotientTimes(Sum(xs) as real, |xs|);
    }
  }

  lemma AddSampleIsAppend(xs: seq<int>, s: int)
    ensures AddSample(Summarize(xs), s) == Summarize(xs + [s])
  {
    WeightedIsSum(xs);
    assert (xs + [s])[..|xs|] == xs;
  }

  /** Taking out the oldest samples and adding one, on the summary and on the samples. */
  lemma RotateTotal(gone: seq<int>, rest: seq<int>, s: int)
    ensures RotateSample(Summarize(gone + rest), Summarize(gone), s) == Summarize(rest + [s])
  {
    WeightedIsSum(gone + rest);
    WeightedIsSum(gone);
    SumAppend(gone, rest);
    assert (rest + [s])[..|rest|] == rest;
    assert Sum(rest + [s]) == Sum(rest) + s;
  }

  lemma ExtendFlatten(win: seq<RawBucket>, s: int)
    requires win != []
    ensures Flatten(win[|win| - 1 := win[|win| - 1].(samples := win[|win| - 1].samples + [s])]) == Flatten(win) + [s]
  {
    var last := win[|win| - 1];
    var front := win[..|win| - 1];
    var last' := last.(samples := last.samples + [s]);
    assert win == front + [last];
    assert win[|win| - 1 := last'] == front + [last'];
    FlattenAppend(front, [last]);
    FlattenAppend(front, [last']);
    assert [last][1..] == [] && [last'][1..] == [];
    assert Flatten([last]) == last.samples && Flatten([last']) == last.samples + [s];
  }

  lemma KeptFlatten(win: seq<RawBucket>, limit: int, b: RawBucket)
    requires limit >= 1 && Settled(win, limit)
    ensures Flatten(Kept(win, limit) + [b]) == Flatten(win[1..]) + b.samples
  {
    FlattenAppend(Kept(win, limit), [b]);
    assert [b][1..] == [] && b.samples + [] == b.samples;
    assert Flatten([b]) == b.samples;
    assert [] + Flatten(win[1..]) == Flatten(win[1..]);
  }

  lemma BucketsRotate(win: seq<RawBucket>, limit: int, b: RawBucket)
    requires limit >= 1 && 1 <= |win| <= limit
    ensures Kept(Buckets(win), limit) + [Bucket(Summarize(b.samples), b.hour)] == Buckets(Kept(win, limit) + [b])
  {
  }

  lemma RotateParts(st: Stats, s: int, limit: int, hour: int, total: DelayStat, current: DelayStat)
    requires limit >= 1 && st.history != []
    requires RotateSample(st.total, st.history[0].stat, s) == total && AddSample(EMPTY, s) == current
    ensures RotateDelay(st, s, limit, hour)
            == Stats(total, st.history[0].stat, current, hour, Kept(st.history, limit) + [Bucket(current, hour)])
  {
  }

  lemma RotatedTotal(win: seq<RawBucket>, limit: int, s: int, hour: int)
    requires limit >= 1 && Settled(win, limit)
    ensures RotateSample(Summarize(Flatten(win)), Summarize(win[0].samples), s)
            == Summarize(Flatten(Kept(win, limit) + [RawBucket([s], hour)]))
  {
    KeptFlatten(win, limit, RawBucket([s], hour));
    RotateTotal(win[0].samples, Flatten(win[1..]), s);
  }

  lemma FirstSample(s: int)
    ensures AddSample(EMPTY, s) == Summarize([s])
  {
    AddSampleIsAppend([], s);
    assert [] + [s] == [s];
  }

  lemma SummaryRotate(win: seq<RawBucket>, rotated: DelayStat, limit: int, s: int, hour: int)
    requires limit >= 1 && Settled(win, limit)
    ensures RotateDelay(Summary(win, rotated), s, limit, hour)
            == Summary(Kept(win, limit) + [RawBucket([s], hour)], Summarize(win[0].samples))
  {
    var st := Summary(win, rotated);
    var b := RawBucket([s], hour);
    RotatedTotal(win, limit, s, hour);
    FirstSample(s);
    BucketsRotate(win, limit, b);
    var next := Summary(Kept(win, limit) + [b], Summarize(win[0].samples));
    assert next.current == Summarize([s]) && next.hour == hour;
    RotateParts(st, s, limit, hour, Summarize(Flatten(Kept(win, limit) + [b])), Summarize([s]));
  }

  lemma SummaryExtend(win: seq<RawBucket>, rotated: DelayStat, s: int)
    requires win != []
    ensures ExtendDelay(Summary(win, rotated), s)
            == Summary(win[|win| - 1 := win[|win| - 1].(samples := win[|win| - 1].samples + [s])], rotated)
  {
    var last := win[|win| - 1];
    AddSampleIsAppend(last.samples, s);
    AddSampleIsAppend(Flatten(win), s);
    ExtendFlatten(win, s);
    var l := ExtendDelay(Summary(win, rotated), s);
    var r := Summary(win[|win| - 1 := last.(samples := last.samples + [s])], rotated);
    assert l.history == r.history;
  }

  lemma SummaryStep(win: seq<RawBucket>, rotated: DelayStat, limit: int, e: Event)
    requires limit >= 1 && Settled(win, limit) && e.Delay?
    ensures Settled(StepWindow(win, limit, e), limit)
    ensures Step(Summary(win, rotated), limit, e)
            == Summary(StepWindow(win, limit, e),
                       if e.check != win[|win| - 1].hour then Summarize(win[0].samples) else rotated)
  {
    if e.check != win[|win| - 1].hour {
      SummaryRotate(win, rotated, limit, e.sample, e.reset);
    } else {
      SummaryExtend(win, rotated, e.sample);
    }
  }

  /** The state is the one recomputed from the samples of a settled window. */
  ghost predicate Recomputed(st: Stats, win: seq<RawBucket>, limit: int) {
    Settled(win, limit) && st == Summary(win, st.rotated)
  }

  lemma RecomputedStep(st: Stats, win: seq<RawBucket>, limit: int, e: Event)
    requires limit >= 1 && Recomputed(st, win, limit) && e.Delay?
    ensures Recomputed(Step(st, limit, e), StepWindow(win, limit, e), limit)
  {
    SummaryStep(win, st.rotated, limit, e);
  }

  lemma RecomputedLast(st: Stats, win: seq<RawBucket>, limit: int, events: seq<Event>)
    requires limit >= 1 && st.history != [] && win != [] && AllDelays(events) && events != []
    requires Recomputed(RunFront(st, limit, events), WindowFront(win, limit, events), limit)
    ensures Recomputed(Run(st, limit, events), RunWindow(win, limit, events), limit)
  {
    RecomputedStep(RunFront(st, limit, events), WindowFront(win, limit, events), limit, events[|events| - 1]);
  }

  lemma {:induction false} RecomputedRun(st: Stats, win: seq<RawBucket>, limit: int, events: seq<Event>)
    requires limit >= 1 && Recomputed(st, win, limit) && AllDelays(events)
    ensures Recomputed(Run(st, limit, events), RunWindow(win, limit, events), limit)
  {
    if events != [] {
      RecomputedRun(st, win, limit, events[..|events| - 1]);
      RecomputedLast(st, win, limit, events);
    }
  }

  /** On a settled window, after every run of delay updates the incrementally kept state is the
      one recomputed from the raw samples of the window: average, counts, buckets and all. */
  lemma RunIsRecomputed(win: seq<RawBucket>, rotated: DelayStat, limit: int, events: seq<Event>)
    requires limit >= 1 && Settled(win, limit)
    requires AllDelays(events)
    ensures Recomputed(Run(Summary(win, rotated), limit, events), RunWindow(win, limit, events), limit)
  {
    RecomputedRun(Summary(win, rotated), win, limit, events);
  }

  lemma FreshIsSummary(hour: int)
    ensures Fresh(hour) == Summary([RawBucket([], hour)], EMPTY)
  {
    var win := [RawBucket([], hour)];
    assert win[1..] == [];
    assert Flatten(win) == [];
    assert Buckets(win) == [Bucket(EMPTY, hour)];
  }

  /** The first sample after a reset, in a new hour: the window settles behind an empty bucket. */
  lemma FirstSampleSettles(hour: int, limit: int, e: Event)
    requires limit >= 2 && e.Delay? && e.check != hour
    ensures var win := StepWindow([RawBucket([], hour)], limit, e);
            Settled(win, limit) && Step(Fresh(hour), limit, e) == Summary(win, EMPTY)
  {
    var empty, b := RawBucket([], hour), RawBucket([e.sample], e.reset);
    var win := StepWindow([empty], limit, e);
    assert win == [empty, b] && win[1..] == [b] && [b][1..] == [];
    assert Flatten([b]) == [e.sample] + Flatten([]);
    assert Flatten(win) == [] + Flatten([b]);
    assert Flatten(win) == [] + [e.sample];
    AddSampleIsAppend([], e.sample);
    RotateTotal([], [], e.sample);
    var none: seq<int> := [];
    assert none + none == none && Summarize(none) == EMPTY;
    assert Buckets(win) == [Bucket(EMPTY, hour), Bucket(Summarize([e.sample]), e.reset)];
    RotateParts(Fresh(hour), e.sample, limit, e.reset, Summarize([e.sample]), Summarize([e.sample]));
  }

  lemma FirstIsRecomputed(hour: int, limit: int, e: Event)
    requires limit >= 1 && e.Delay? && (limit == 1 || e.check != hour)
    ensures Recomputed(Step(Fresh(hour), limit, e), StepWindow([RawBucket([], hour)], limit, e), limit)
  {
    if limit == 1 {
      FreshIsSummary(hour);
      SummaryStep([RawBucket([], hour)], EMPTY, limit, e);
    } else {
      FirstSampleSettles(hour, limit, e);
    }
  }

  /** From a reset whose first update falls in a new hour, or with a single bucket, every sequence of delay updates
      leaves the state recomputed from the raw samples. */
  lemma {:induction false} ResetIsRecomputed(hour: int, limit: int, events: seq<Event>)
    requires limit >= 1 && events != [] && (limit == 1 || events[0].check != hour)
    requires AllDelays(events)
    ensures Recomputed(Run(Fresh(hour), limit, events), RunWindow([RawBucket([], hour)], limit, events), limit)
  {
    var before, start := events[..|events| - 1], [RawBucket([], hour)];
    if before == [] {
      assert Run(Fresh(hour), limit, before) == Fresh(hour) && RunWindow(start, limit, before) == start;
      FirstIsRecomputed(hour, limit, events[0]);
    } else {
      ResetIsRecomputed(hour, limit, before);
      RecomputedLast(Fresh(hour), start, limit, events);
    }
  }
}
