/** Choosing the server to promote when the master is lost. */
module FailoverElection {
  import opened Prelude
  import opened Coordinates
  import opened DelayStats
  import opened Snapshot
  import opened Sorting

  // ---- Declarative specification ----

  /** Passes every skip condition that comes before the master is consulted. */
  predicate Reached(v: View, s: Server) {
    && !s.isRelay
    && !s.isFull
    && !(v.conf.multiMaster && s.state.Master?)
    && !(s.haveNoMasterOnStart && !v.conf.failRestartUnsafe)
    && (s.hasBinlog || s.ignored)
  }

  predicate ByWsrep(v: View) { v.wsrepTopology && v.vmaster.Some? }

  /** Takes part in the comparison of positions, electable or not. */
  predicate Examined(v: View, s: Server) {
    && Reached(v, s)
    && !ByWsrep(v)
    && v.master.Some?
    && (s.status.Some? || v.conf.failRestartUnsafe)
    && '.' in LogFile(s)
  }

  /** Some examined server has a non-zero sequence: sequences decide, otherwise positions do. */
  ghost predicate BySequence(v: View, l: seq<Server>) {
    exists i :: 0 <= i < |l| && Examined(v, l[i]) && Sequence(v, l[i]) > 0
  }

  ghost function Progress(v: View, l: seq<Server>, s: Server): nat
    requires Examined(v, s)
  {
    if BySequence(v, l) then Sequence(v, s) else Position(s)
  }

  /** No examined server has read further than server i. */
  ghost predicate Leads(v: View, l: seq<Server>, i: int) {
    && 0 <= i < |l|
    && Examined(v, l[i])
    && Progress(v, l, l[i]) > 0
    && forall j :: 0 <= j < |l| && Examined(v, l[j]) ==> Progress(v, l, l[j]) <= Progress(v, l, l[i])
  }

  ghost predicate Eligible(v: View, l: seq<Server>, i: int) {
    Leads(v, l, i) && IsSlaveElectable(v, l[i])
  }

  predicate Prefers(v: View, s: Server) { s.prefered && !IsChild(v, s) }

  /** The progress a server is ranked by; one that is not examined ranks last. */
  ghost function Rank(v: View, l: seq<Server>, i: nat): nat
    requires i < |l|
  {
    if Examined(v, l[i]) then Progress(v, l, l[i]) else 0
  }

  /** Some average is no number and stands between two statistics of the same rank, errors and delays that are not
      tied. */
  ghost predicate Torn(ranks: seq<nat>, delays: seq<DelayStat>)
    requires |ranks| == |delays|
  {
    exists i, j, k :: 0 <= i < |ranks| && 0 <= j < |ranks| && 0 <= k < |ranks| && ranks[i] == ranks[j] == ranks[k]
      && Tears(delays[j], delays[k], delays[i])
  }

  ghost function Ranks(v: View, l: seq<Server>): seq<nat> { seq(|l|, i requires 0 <= i < |l| => Rank(v, l, i)) }

  function Delays(l: seq<Server>): seq<DelayStat> { seq(|l|, i requires 0 <= i < |l| => l[i].delay) }

  /** What the election promises outside wsrep: the most advanced examined servers compete if
      they are electable, preferred ones win, then the better delay statistics. */
  ghost predicate FailoverPick(v: View, l: seq<Server>, key: int) {
    if key == -1 then forall i :: 0 <= i < |l| ==> !Eligible(v, l, i)
    else
      && Eligible(v, l, key)
      && (forall i :: 0 <= i < |l| && Eligible(v, l, i) && Prefers(v, l[i]) ==> Prefers(v, l[key]))
      && (v.conf.failoverCheckDelayStat && !Torn(Ranks(v, l), Delays(l)) ==>
            forall i :: 0 <= i < |l| && Eligible(v, l, i) && Prefers(v, l[i]) == Prefers(v, l[key])
              ==> !Steadier(l[i].delay, l[key].delay))
  }

  /** In a wsrep cluster with a virtual master: the first other node in the wsrep state. */
  predicate WsrepCandidate(v: View, s: Server)
    requires ByWsrep(v)
  {
    Reached(v, s) && v.vmaster.value.url != s.url && s.state.Wsrep?
  }

  ghost predicate WsrepPick(v: View, l: seq<Server>, key: int)
    requires ByWsrep(v)
  {
    if key == -1 then forall i :: 0 <= i < |l| ==> !WsrepCandidate(v, l[i])
    else 0 <= key < |l| && WsrepCandidate(v, l[key]) && forall i :: 0 <= i < key ==> !WsrepCandidate(v, l[i])
  }

  // ---- Ordering of the candidates ----

  datatype Track = Track(
    indice: nat,
    pos: nat,
    seqNo: nat,
    prefered: bool,
    ignoredConf: bool,
    ignoredRelay: bool,
    ignoredMultiMaster: bool,
    ignoredReplication: bool,
    delay: DelayStat)

  /** Float comparison: infinities are below or above every number; what is no number is different from, and not
      below, everything. */
  predicate Differs(a: Avg, b: Avg) { IsNaN(a) || IsNaN(b) || Below(a, b) || Below(b, a) }

  predicate Below(a: Avg, b: Avg) {
    && !IsNaN(a) && !IsNaN(b)
    && if a.Finite? then if b.Finite? then a.r < b.r else b.r > 0.0
       else a.r < 0.0 && (b.Finite? || b.r > 0.0)
  }

  /** Fewer errors, then fewer delays, then a smaller average, then more samples. */
  predicate Steadier(a: DelayStat, b: DelayStat) {
    if a.errors != b.errors then a.errors < b.errors
    else if a.delays != b.delays then a.delays < b.delays
    else if Differs(a.avg, b.avg) then Below(a.avg, b.avg)
    else a.counter > b.counter
  }

  function Metric(t: Track, byPos: bool): nat { if byPos then t.pos else t.seqNo }

  predicate Less(a: Track, b: Track, byPos: bool, useDelay: bool) {
    if Metric(a, byPos) != Metric(b, byPos) then Metric(a, byPos) > Metric(b, byPos)
    else useDelay && Steadier(a.delay, b.delay)
  }

  /** The average of n is no number, and n is tied with a and with b, which are not tied with each other. */
  predicate Tears(n: DelayStat, a: DelayStat, b: DelayStat) {
    && IsNaN(n.avg) && Steadier(a, b)
    && n.errors == a.errors == b.errors && n.delays == a.delays == b.delays
  }

  /** Coming no earlier is transitive exactly where no average that is no number is tied with two that are not tied.
      */
  lemma TearsIff(x: DelayStat, y: DelayStat, z: DelayStat)
    ensures !Steadier(y, x) && !Steadier(z, y) && Steadier(z, x) <==> Tears(y, z, x)
    ensures Steadier(x, y) ==> !Steadier(y, x)
  {
  }

  /** The delay comparison is a strict weak order on a set of statistics if and only if none tears two others. */
  lemma SteadierOrderIff(m: set<DelayStat>)
    ensures WeakOrder(multiset(m), Steadier) <==> !exists n, a, b :: n in m && a in m && b in m && Tears(n, a, b)
  {
    forall x, y, z ensures !Steadier(y, x) && !Steadier(z, y) && Steadier(z, x) <==> Tears(y, z, x) {
      TearsIff(x, y, z);
    }
    if n, a, b :| n in m && a in m && b in m && Tears(n, a, b) {
      assert b in multiset(m) && n in multiset(m) && a in multiset(m);
      assert !Steadier(n, b) && !Steadier(a, n) && Steadier(a, b);
    }
  }

  /** In particular it is one on all averages that are numbers or infinite. */
  lemma SteadierIsStrictWeakOrder(m: set<DelayStat>)
    requires forall d :: d in m ==> !IsNaN(d.avg)
    ensures WeakOrder(multiset(m), Steadier)
  {
    SteadierOrderIff(m);
  }

  /** Two averages and one that is no number, all tied in errors and delays. */
  lemma NaNBreaksTheOrder()
    ensures var a, n, b :=
              DelayStat(Finite(1.0), 0, 0, 1), DelayStat(OverZero(0.0), 0, 0, 1), DelayStat(Finite(2.0), 0, 0, 1);
            !WeakOrder(multiset({a, n, b}), Steadier)
  {
    var a, n, b := DelayStat(Finite(1.0), 0, 0, 1), DelayStat(OverZero(0.0), 0, 0, 1), DelayStat(Finite(2.0), 0, 0, 1);
    SteadierOrderIff({a, n, b});
    assert Tears(n, a, b);
  }

  function Metrics(ts: seq<Track>, byPos: bool): seq<nat> {
    seq(|ts|, i requires 0 <= i < |ts| => Metric(ts[i], byPos))
  }

  function TrackDelays(ts: seq<Track>): seq<DelayStat> { seq(|ts|, i requires 0 <= i < |ts| => ts[i].delay) }

  /** The same on the records: only records with the same metric compare their statistics. */
  ghost predicate TornTracks(ts: seq<Track>, byPos: bool) { Torn(Metrics(ts, byPos), TrackDelays(ts)) }

  lemma LessTears(x: Track, y: Track, z: Track, byPos: bool, useDelay: bool)
    ensures !Less(y, x, byPos, useDelay) && !Less(z, y, byPos, useDelay) && Less(z, x, byPos, useDelay)
            <==> && useDelay && Metric(x, byPos) == Metric(y, byPos) == Metric(z, byPos)
                 && Tears(y.delay, z.delay, x.delay)
    ensures Less(x, y, byPos, useDelay) ==> !Less(y, x, byPos, useDelay)
  {
    TearsIff(x.delay, y.delay, z.delay);
  }

  // ---- The records the scan builds ----

  /** The record of one server after the scan of the server list. */
  function TrackOf(v: View, s: Server, i: nat): Track {
    var consulted := Reached(v, s) && !ByWsrep(v) && v.master.Some?;
    Track(i,
          if Examined(v, s) then Position(s) else 0,
          if Examined(v, s) then Sequence(v, s) else 0,
          Prefers(v, s),
          s.ignored || IsChild(v, s),
          s.isRelay,
          !s.isRelay && !s.isFull && v.conf.multiMaster && s.state.Master?,
          consulted && ((s.status.None? && !v.conf.failRestartUnsafe) || !IsSlaveElectable(v, s)),
          s.delay)
  }

  ghost predicate TracksUpTo(v: View, l: seq<Server>, ts: seq<Track>) {
    |ts| <= |l| && forall i :: 0 <= i < |ts| ==> ts[i] == TrackOf(v, l[i], i)
  }

  lemma TracksAppend(v: View, l: seq<Server>, ts: seq<Track>, t: Track)
    requires TracksUpTo(v, l, ts) && |ts| < |l| && t == TrackOf(v, l[|ts|], |ts|)
    ensures TracksUpTo(v, l, ts + [t])
  {
  }

  ghost predicate Tracks(v: View, l: seq<Server>, ts: seq<Track>) {
    |ts| == |l| && forall i :: 0 <= i < |l| ==> ts[i] == TrackOf(v, l[i], i)
  }

  /** The body of the loop over the servers, for one server. */
  method TrackServer(v: View, s: Server, i: nat) returns (elected: bool, t: Track)
    ensures elected == (ByWsrep(v) && WsrepCandidate(v, s))
    ensures !elected ==> t == TrackOf(v, s, i)
  {
    elected := false;
    t := Track(i, 0, 0, Prefers(v, s), s.ignored || IsChild(v, s), s.isRelay, false, false, s.delay);
    if s.isRelay {
      return;
    }
    if s.isFull {
      return;
    }
    if v.conf.multiMaster && s.state.Master? {
      t := t.(ignoredMultiMaster := true);
      return;
    }
    if s.haveNoMasterOnStart && !v.conf.failRestartUnsafe {
      return;
    }
    if !s.hasBinlog && !s.ignored {
      return;
    }
    if v.wsrepTopology && v.vmaster.Some? {
      elected := v.vmaster.value.url != s.url && s.state.Wsrep?;
      return;
    }
    if v.master.None? {
      return;
    }
    if s.status.None? && !v.conf.failRestartUnsafe {
      t := t.(ignoredReplication := true);
      return;
    }
    t := t.(ignoredReplication := !IsSlaveElectable(v, s));
    var pos := ReadCoordinate(LogFile(s), LogOffset(s));
    if pos.None? {
      return;
    }
    var seqNo := AddSeqNos(SeqNos(v, s));
    t := t.(pos := pos.value, seqNo := seqNo);
  }

  /** The loop over the servers: fills one record per server and tracks both maxima. */
  method CollectTracks(v: View, l: seq<Server>) returns (wsrepKey: int, tracks: seq<Track>, maxseq: nat, maxpos: nat)
    ensures wsrepKey >= 0 ==> ByWsrep(v) && WsrepPick(v, l, wsrepKey)
    ensures wsrepKey < 0 ==> wsrepKey == -1 && (ByWsrep(v) ==> WsrepPick(v, l, -1))
    ensures wsrepKey < 0 ==> Tracks(v, l, tracks)
    ensures wsrepKey < 0 ==> IsMax(tracks, false, maxseq) && IsMax(tracks, true, maxpos)
  {
    wsrepKey := -1;
    maxseq, maxpos := 0, 0;
    tracks := [];
    for i := 0 to |l|
      invariant |tracks| == i && TracksUpTo(v, l, tracks)
      invariant IsMax(tracks, false, maxseq) && IsMax(tracks, true, maxpos)
      invariant ByWsrep(v) ==> forall k :: 0 <= k < i ==> !WsrepCandidate(v, l[k])
    {
      var elected, t := TrackServer(v, l[i], i);
      if elected {
        wsrepKey := i;
        return;
      }
      IsMaxAppend(tracks, t, false, maxseq);
      IsMaxAppend(tracks, t, true, maxpos);
      TracksAppend(v, l, tracks, t);
      tracks := tracks + [t];
      if t.seqNo > maxseq {
        maxseq := t.seqNo;
      }
      if t.pos > maxpos {
        maxpos := t.pos;
      }
    }
  }

  lemma IsMaxAppend(ts: seq<Track>, t: Track, byPos: bool, m: nat)
    requires IsMax(ts, byPos, m)
    ensures IsMax(ts + [t], byPos, Max(m, Metric(t, byPos)))
  {
    var m' := Max(m, Metric(t, byPos));
    if m' > 0 {
      if m' == Metric(t, byPos) {
        assert Metric((ts + [t])[|ts|], byPos) == m';
      } else {
        var i :| 0 <= i < |ts| && Metric(ts[i], byPos) == m;
        assert Metric((ts + [t])[i], byPos) == m';
      }
    }
  }

  /** m is the largest metric of the records, 0 if there is none. */
  ghost predicate IsMax(ts: seq<Track>, byPos: bool, m: nat) {
    && (forall i :: 0 <= i < |ts| ==> Metric(ts[i], byPos) <= m)
    && (m > 0 ==> exists i :: 0 <= i < |ts| && Metric(ts[i], byPos) == m)
  }

  // ---- The tiers ----

  datatype Tier = Prefered | Regular | IgnoredByConf

  predicate InTier(t: Track, tier: Tier, byPos: bool, max: nat) {
    && Metric(t, byPos) == max
    && !t.ignoredRelay && !t.ignoredMultiMaster && !t.ignoredReplication
    && (tier.IgnoredByConf? <==> t.ignoredConf)
    && (tier.Prefered? ==> t.prefered)
  }

  method ScanTier(ts: seq<Track>, tier: Tier, byPos: bool, max: nat) returns (at: int)
    ensures at == -1 ==> forall i :: 0 <= i < |ts| ==> !InTier(ts[i], tier, byPos, max)
    ensures at != -1 ==> 0 <= at < |ts| && InTier(ts[at], tier, byPos, max)
    ensures at != -1 ==> forall i :: 0 <= i < at ==> !InTier(ts[i], tier, byPos, max)
  {
    for i := 0 to |ts|
      invariant forall k :: 0 <= k < i ==> !InTier(ts[k], tier, byPos, max)
    {
      if InTier(ts[i], tier, byPos, max) {
        return i;
      }
    }
    return -1;
  }

  /** The three scans over the sorted records: preferred, then any, then ignored ones. */
  method ScanTiers(ts: seq<Track>, byPos: bool, max: nat) returns (at: int)
    ensures at == -1 ==> forall i, tier :: 0 <= i < |ts| ==> !InTier(ts[i], tier, byPos, max)
    ensures at != -1 ==> 0 <= at < |ts| && exists tier :: FirstOfTier(ts, at, tier, byPos, max)
  {
    at := ScanTier(ts, Prefered, byPos, max);
    if at != -1 {
      assert FirstOfTier(ts, at, Prefered, byPos, max);
      return;
    }
    at := ScanTier(ts, Regular, byPos, max);
    if at != -1 {
      assert FirstOfTier(ts, at, Regular, byPos, max);
      return;
    }
    at := ScanTier(ts, IgnoredByConf, byPos, max);
    if at != -1 {
      assert FirstOfTier(ts, at, IgnoredByConf, byPos, max);
      return;
    }
    forall i, tier | 0 <= i < |ts| ensures !InTier(ts[i], tier, byPos, max) {
      match tier
      case Prefered =>
      case Regular =>
      case IgnoredByConf =>
    }
  }

  /** Record `at` is the first of its tier and the tiers before it are empty. */
  ghost predicate FirstOfTier(ts: seq<Track>, at: int, tier: Tier, byPos: bool, max: nat) {
    && 0 <= at < |ts|
    && InTier(ts[at], tier, byPos, max)
    && (forall i :: 0 <= i < at ==> !InTier(ts[i], tier, byPos, max))
    && (!tier.Prefered? ==> forall i :: 0 <= i < |ts| ==> !InTier(ts[i], Prefered, byPos, max))
    && (tier.IgnoredByConf? ==> forall i :: 0 <= i < |ts| ==> !InTier(ts[i], Regular, byPos, max))
  }

  /** A record with progress that replication does not rule out belongs to an electable server:
      the tier of ignored servers is always empty. */
  lemma IgnoredTierIsEmpty(v: View, s: Server, i: nat, byPos: bool, max: nat)
    requires max > 0
    ensures !InTier(TrackOf(v, s, i), IgnoredByConf, byPos, max)
    ensures InTier(TrackOf(v, s, i), Regular, byPos, max)
            <==> Examined(v, s) && Metric(TrackOf(v, s, i), byPos) == max && IsSlaveElectable(v, s)
  {
  }

  // ---- From the tiers to the specification ----

  /** What the scan knows when it turns to sequences (byPos false) or positions (byPos true). */
  ghost predicate Ranked(v: View, l: seq<Server>, ts: seq<Track>, byPos: bool, max: nat) {
    && Tracks(v, l, ts)
    && max > 0
    && IsMax(ts, byPos, max)
    && (byPos ==> IsMax(ts, false, 0))
  }

  lemma RankedByMetric(v: View, l: seq<Server>, ts: seq<Track>, byPos: bool, max: nat)
    requires Ranked(v, l, ts, byPos, max)
    ensures byPos <==> !BySequence(v, l)
  {
    if byPos {
      forall i | 0 <= i < |l| && Examined(v, l[i]) ensures Sequence(v, l[i]) == 0 {
        assert Metric(ts[i], false) <= 0;
      }
    } else {
      var i :| 0 <= i < |ts| && Metric(ts[i], false) == max;
      assert Examined(v, l[i]) && Sequence(v, l[i]) > 0;
    }
  }

  lemma MetricIsProgress(v: View, l: seq<Server>, ts: seq<Track>, byPos: bool, max: nat, i: nat)
    requires Ranked(v, l, ts, byPos, max) && i < |l|
    ensures Metric(ts[i], byPos) == if Examined(v, l[i]) then Progress(v, l, l[i]) else 0
  {
    RankedByMetric(v, l, ts, byPos, max);
  }

  lemma LeadsIffMax(v: View, l: seq<Server>, ts: seq<Track>, byPos: bool, max: nat, i: nat)
    requires Ranked(v, l, ts, byPos, max) && i < |l|
    ensures Leads(v, l, i) <==> Metric(ts[i], byPos) == max
  {
    forall k | 0 <= k < |l| ensures Metric(ts[k], byPos) == if Examined(v, l[k]) then Progress(v, l, l[k]) else 0 {
      MetricIsProgress(v, l, ts, byPos, max, k);
    }
    var m :| 0 <= m < |ts| && Metric(ts[m], byPos) == max;
    assert Examined(v, l[m]);
    if Leads(v, l, i) {
      assert Progress(v, l, l[m]) <= Progress(v, l, l[i]);
    }
  }

  /** The second tier holds exactly the eligible servers, the first the preferred among them. */
  lemma TiersAreEligible(v: View, l: seq<Server>, ts: seq<Track>, byPos: bool, max: nat, i: nat)
    requires Ranked(v, l, ts, byPos, max) && i < |l|
    ensures InTier(ts[i], Regular, byPos, max) <==> Eligible(v, l, i)
    ensures InTier(ts[i], Prefered, byPos, max) <==> Eligible(v, l, i) && Prefers(v, l[i])
    ensures !InTier(ts[i], IgnoredByConf, byPos, max)
  {
    LeadsIffMax(v, l, ts, byPos, max, i);
    IgnoredTierIsEmpty(v, l[i], i, byPos, max);
  }

  lemma Located(ts: seq<Track>, sorted: seq<Track>, t: Track) returns (j: nat)
    requires multiset(ts) == multiset(sorted) && t in ts
    ensures j < |sorted| && sorted[j] == t
  {
    assert t in multiset(sorted);
    j :| 0 <= j < |sorted| && sorted[j] == t;
  }

  lemma NoneFound(v: View, l: seq<Server>, ts: seq<Track>, sorted: seq<Track>, byPos: bool, max: nat)
    requires Ranked(v, l, ts, byPos, max) && multiset(ts) == multiset(sorted)
    requires forall i, tier :: 0 <= i < |sorted| ==> !InTier(sorted[i], tier, byPos, max)
    ensures FailoverPick(v, l, -1)
  {
    forall i | 0 <= i < |l| ensures !Eligible(v, l, i) {
      var j := Located(ts, sorted, ts[i]);
      TiersAreEligible(v, l, ts, byPos, max, i);
      assert !InTier(sorted[j], Regular, byPos, max);
    }
  }

  /** The record found: its server is eligible, preferred if any eligible one is, and no eligible
      server of the same tier has steadier replication. */
  lemma Found(v: View, l: seq<Server>, ts: seq<Track>, sorted: seq<Track>, byPos: bool, max: nat, at: nat, tier: Tier)
    requires Ranked(v, l, ts, byPos, max) && Arranged(v, ts, sorted, byPos)
    requires FirstOfTier(sorted, at, tier, byPos, max)
    ensures FailoverPick(v, l, sorted[at].indice)
  {
    var key := Located(sorted, ts, sorted[at]);
    assert sorted[at].indice == key;
    TiersAreEligible(v, l, ts, byPos, max, key);
    assert !tier.IgnoredByConf?;
    forall i | 0 <= i < |l| && Eligible(v, l, i)
      ensures Prefers(v, l[i]) ==> Prefers(v, l[key])
      ensures v.conf.failoverCheckDelayStat && !Torn(Ranks(v, l), Delays(l)) && Prefers(v, l[i]) == Prefers(v, l[key])
              ==> !Steadier(l[i].delay, l[key].delay)
    {
      FoundBeats(v, l, ts, sorted, byPos, max, at, tier, key, i);
    }
  }

  lemma FoundBeats(v: View, l: seq<Server>, ts: seq<Track>, sorted: seq<Track>, byPos: bool, max: nat,
                   at: nat, tier: Tier, key: nat, i: nat)
    requires Ranked(v, l, ts, byPos, max) && Arranged(v, ts, sorted, byPos)
    requires FirstOfTier(sorted, at, tier, byPos, max) && !tier.IgnoredByConf?
    requires key < |l| && ts[key] == sorted[at] && i < |l| && Eligible(v, l, i)
    ensures Prefers(v, l[i]) ==> Prefers(v, l[key])
    ensures v.conf.failoverCheckDelayStat && !Torn(Ranks(v, l), Delays(l)) && Prefers(v, l[i]) == Prefers(v, l[key])
            ==> !Steadier(l[i].delay, l[key].delay)
  {
    var j := Located(ts, sorted, ts[i]);
    TiersAreEligible(v, l, ts, byPos, max, i);
    TiersAreEligible(v, l, ts, byPos, max, key);
    assert InTier(sorted[j], Regular, byPos, max);
    if Prefers(v, l[i]) {
      assert InTier(sorted[j], Prefered, byPos, max);
      assert tier.Prefered?;
    }
    if v.conf.failoverCheckDelayStat && !Torn(Ranks(v, l), Delays(l)) && Prefers(v, l[i]) == Prefers(v, l[key]) {
      TornIff(v, l, ts, byPos, max);
      assert InTier(sorted[j], tier, byPos, max);
      assert at <= j;
      if at == j {
        TearsIff(l[i].delay, l[i].delay, l[i].delay);
      } else {
        assert !Less(sorted[j], sorted[at], byPos, true);
      }
    }
  }

  /** Nothing examined has any progress. */
  lemma NoProgress(v: View, l: seq<Server>, ts: seq<Track>)
    requires Tracks(v, l, ts) && IsMax(ts, false, 0) && IsMax(ts, true, 0)
    ensures FailoverPick(v, l, -1)
  {
    forall i | 0 <= i < |l| ensures !Eligible(v, l, i) {
      assert Metric(ts[i], false) == 0 && Metric(ts[i], true) == 0;
    }
  }

  /** electFailoverCandidate. */
  method ElectFailoverCandidate(v: View, l: seq<Server>) returns (key: int)
    ensures -1 <= key < |l|
    ensures ByWsrep(v) ==> WsrepPick(v, l, key)
    ensures !ByWsrep(v) ==> FailoverPick(v, l, key)
    ensures !ByWsrep(v) && key >= 0 ==> v.master.Some? && IsSlaveElectable(v, l[key])
  {
    var wsrepKey, ts, maxseq, maxpos := CollectTracks(v, l);
    if wsrepKey >= 0 {
      return wsrepKey;
    }
    var tracks := new Track[|ts|](i requires 0 <= i < |ts| => ts[i]);
    assert tracks[..] == ts;
    SortFor(v, tracks, ts, false);
    if maxseq > 0 {
      key := PickFrom(v, l, ts, tracks[..], false, maxseq);
      return;
    }
    SortFor(v, tracks, ts, true);
    if maxpos > 0 {
      key := PickFrom(v, l, ts, tracks[..], true, maxpos);
      return;
    }
    NoProgress(v, l, ts);
    return -1;
  }

  method SortFor(v: View, a: array<Track>, ghost ts: seq<Track>, byPos: bool)
    requires multiset(ts) == multiset(a[..])
    modifies a
    ensures Arranged(v, ts, a[..], byPos)
  {
    var useDelay := v.conf.failoverCheckDelayStat;
    if useDelay ==> !TornTracks(ts, byPos) {
      LessIsWeakOrder(ts, byPos, useDelay);
    }
    SortSlice(a, (x: Track, y: Track) => Less(x, y, byPos, useDelay));
  }

  lemma TornTriple(ts: seq<Track>, byPos: bool, x: Track, y: Track, z: Track)
    requires x in ts && y in ts && z in ts && Metric(x, byPos) == Metric(y, byPos) == Metric(z, byPos)
    ensures Tears(y.delay, z.delay, x.delay) ==> TornTracks(ts, byPos)
  {
    var i :| 0 <= i < |ts| && ts[i] == x;
    var j :| 0 <= j < |ts| && ts[j] == y;
    var k :| 0 <= k < |ts| && ts[k] == z;
    var ranks, delays := Metrics(ts, byPos), TrackDelays(ts);
    assert ranks[i] == ranks[j] == ranks[k];
    assert delays[j] == y.delay && delays[k] == z.delay && delays[i] == x.delay;
  }

  lemma LessIsWeakOrder(ts: seq<Track>, byPos: bool, useDelay: bool)
    requires useDelay ==> !TornTracks(ts, byPos)
    ensures WeakOrder(multiset(ts), (x: Track, y: Track) => Less(x, y, byPos, useDelay))
  {
    var less := (x: Track, y: Track) => Less(x, y, byPos, useDelay);
    forall x, y | x in multiset(ts) && y in multiset(ts) && less(x, y) ensures !less(y, x) {
      LessTears(x, y, y, byPos, useDelay);
    }
    forall x, y, z | x in multiset(ts) && y in multiset(ts) && z in multiset(ts) && !less(y, x) && !less(z, y)
      ensures !less(z, x)
    {
      if useDelay && Metric(x, byPos) == Metric(y, byPos) == Metric(z, byPos) {
        TornTriple(ts, byPos, x, y, z);
      }
      LessTears(x, y, z, byPos, useDelay);
    }
  }

  /** The records are torn exactly when the servers are. */
  lemma TornIff(v: View, l: seq<Server>, ts: seq<Track>, byPos: bool, max: nat)
    requires Ranked(v, l, ts, byPos, max)
    ensures TornTracks(ts, byPos) <==> Torn(Ranks(v, l), Delays(l))
  {
    forall i | 0 <= i < |l| ensures Metric(ts[i], byPos) == Rank(v, l, i) {
      MetricIsProgress(v, l, ts, byPos, max, i);
    }
    assert Metrics(ts, byPos) == Ranks(v, l);
    assert TrackDelays(ts) == Delays(l);
  }

  ghost predicate InOrder(s: seq<Track>, byPos: bool) {
    forall i, j :: 0 <= i < j < |s| ==> !Less(s[j], s[i], byPos, true)
  }

  /** A rearrangement of the records, sorted when the comparison is an order. */
  ghost predicate Arranged(v: View, ts: seq<Track>, sorted: seq<Track>, byPos: bool) {
    && multiset(ts) == multiset(sorted)
    && (v.conf.failoverCheckDelayStat && !TornTracks(ts, byPos) ==> InOrder(sorted, byPos))
  }

  method PickFrom(v: View, l: seq<Server>, ghost ts: seq<Track>, sorted: seq<Track>, byPos: bool, max: nat)
    returns (key: int)
    requires Ranked(v, l, ts, byPos, max) && Arranged(v, ts, sorted, byPos)
    ensures !ByWsrep(v) && v.master.Some? && -1 <= key < |l| && FailoverPick(v, l, key)
    ensures key >= 0 ==> IsSlaveElectable(v, l[key])
  {
    ghost var m :| 0 <= m < |ts| && Metric(ts[m], byPos) == max;
    assert Examined(v, l[m]);
    var at := ScanTiers(sorted, byPos, max);
    if at == -1 {
      NoneFound(v, l, ts, sorted, byPos, max);
      return -1;
    }
    ghost var tier :| FirstOfTier(sorted, at, tier, byPos, max);
    Found(v, l, ts, sorted, byPos, max, at, tier);
    return sorted[at].indice;
  }

  // ---- What a caller may rely on ----

  /** No examined server, electable or not, is ahead of the elected one; and the election
      fails exactly when no electable server is among the most advanced. */
  lemma NeverBackwards(v: View, l: seq<Server>, key: int)
    requires FailoverPick(v, l, key)
    ensures key >= 0 && BySequence(v, l) ==>
              forall j :: 0 <= j < |l| && Examined(v, l[j]) ==> Sequence(v, l[j]) <= Sequence(v, l[key])
    ensures key >= 0 && !BySequence(v, l) ==>
              forall j :: 0 <= j < |l| && Examined(v, l[j]) ==> Position(l[j]) <= Position(l[key])
    ensures key == -1 <==> forall i :: 0 <= i < |l| && Leads(v, l, i) ==> !IsSlaveElectable(v, l[i])
  {
    if key == -1 {
      forall i | 0 <= i < |l| && Leads(v, l, i) ensures !IsSlaveElectable(v, l[i]) {
        assert !Eligible(v, l, i);
      }
    } else {
      assert Leads(v, l, key) && IsSlaveElectable(v, l[key]);
      forall j | 0 <= j < |l| && Examined(v, l[j]) ensures Progress(v, l, l[j]) <= Progress(v, l, l[key]) {
      }
    }
  }

  /** With a failed master no server that keeps a binlog and replicates, electable or not, has received more of the
      master's domain than the elected one, unless it is a relay, full, waiting for a first master or a master itself.
      */
  lemma NobodyReceivedMore(v: View, l: seq<Server>, key: int, j: nat, mine: nat, theirs: nat)
    requires FailoverPick(v, l, key) && key >= 0 && v.master.value.state == Failed
    requires j < |l| && l[j].status.Some? && '.' in l[j].status.value.masterLogFile
    requires l[j].hasBinlog && !l[j].isRelay && !l[j].isFull && !(v.conf.multiMaster && l[j].state == Master)
    requires l[j].haveNoMasterOnStart ==> v.conf.failRestartUnsafe
    requires OnlyEntry(l[key].status.value.gtidIOPos, v.master.value.domainId, mine)
    requires OnlyEntry(l[j].status.value.gtidIOPos, v.master.value.domainId, theirs)
    requires l[key].status.value.gtidIOPos[mine].seqNo < TWO_TO_64
    requires l[j].status.value.gtidIOPos[theirs].seqNo < TWO_TO_64
    ensures l[j].status.value.gtidIOPos[theirs].seqNo <= l[key].status.value.gtidIOPos[mine].seqNo
  {
    assert Eligible(v, l, key) && l[key].status.Some? && Examined(v, l[j]);
    ReceivedSequence(v, l[key], mine);
    ReceivedSequence(v, l[j], theirs);
    SequenceNotAhead(v, l, key, j);
  }

  lemma ReceivedSequence(v: View, s: Server, k: nat)
    requires v.master.Some? && v.master.value.state == Failed && s.status.Some?
    requires OnlyEntry(s.status.value.gtidIOPos, v.master.value.domainId, k)
    requires s.status.value.gtidIOPos[k].seqNo < TWO_TO_64
    ensures Sequence(v, s) == s.status.value.gtidIOPos[k].seqNo
  {
    RankedByReceived(v, s, k);
  }

  lemma SequenceNotAhead(v: View, l: seq<Server>, key: int, j: nat)
    requires FailoverPick(v, l, key) && key >= 0 && j < |l| && Examined(v, l[j])
    ensures Sequence(v, l[j]) <= Sequence(v, l[key])
  {
    NeverBackwards(v, l, key);
    if Sequence(v, l[j]) > 0 {
      assert BySequence(v, l);
    }
  }

  /** Where failover may be unsafe a server without a replication status competes too, as one that has read next to
      nothing: whoever is elected is not behind that. */
  lemma PlaceholderCompetes(v: View, l: seq<Server>, key: int, j: nat)
    requires FailoverPick(v, l, key) && key >= 0 && v.conf.failRestartUnsafe && j < |l| && l[j].status.None?
    requires l[j].hasBinlog && !l[j].isRelay && !l[j].isFull && !(v.conf.multiMaster && l[j].state == Master)
    ensures Sequence(v, l[key]) >= 1
  {
    assert Eligible(v, l, key);
    PlaceholderRank(v, l[j]);
    assert Examined(v, l[j]);
    SequenceNotAhead(v, l, key, j);
  }

  /** A preferred candidate beats every other, on the servers' own flags. */
  lemma PreferredWins(v: View, l: seq<Server>, key: int, i: nat)
    requires FailoverPick(v, l, key) && i < |l| && Eligible(v, l, i) && l[i].prefered
    ensures 0 <= key < |l| && l[key].prefered
  {
    assert key != -1;
  }

  /** With the delay check on, and finite averages, the winner has the fewest errors of its tier, then the fewest
      delays, then the smallest average, then the most samples. */
  lemma WinnerIsSteadiest(v: View, l: seq<Server>, key: int, i: nat)
    requires FailoverPick(v, l, key) && key >= 0 && v.conf.failoverCheckDelayStat
    requires forall j :: 0 <= j < |l| ==> l[j].delay.avg.Finite?
    requires i < |l| && Eligible(v, l, i) && l[i].prefered == l[key].prefered
    ensures var a, b := l[key].delay, l[i].delay;
            || a.errors < b.errors
            || (a.errors == b.errors
                && (|| a.delays < b.delays
                    || (a.delays == b.delays
                        && (a.avg.r < b.avg.r || (a.avg.r == b.avg.r && a.counter >= b.counter)))))
  {
    assert !Torn(Ranks(v, l), Delays(l));
    assert Prefers(v, l[i]) == Prefers(v, l[key]);
  }

  /** Infinite averages: a finite one is better than a positive infinity and worse than a negative one. */
  lemma InfinitiesCompare(a: DelayStat, b: DelayStat)
    requires a.errors == b.errors && a.delays == b.delays && a.avg.Finite? && b.avg.OverZero? && b.avg.r != 0.0
    ensures Steadier(a, b) <==> b.avg.r > 0.0
    ensures Steadier(b, a) <==> b.avg.r < 0.0
  {
  }

  /** In a wsrep cluster the elected node is in the wsrep state and is not the present virtual master, and no sound
      node of that kind comes before it in the list. */
  lemma WsrepElected(v: View, l: seq<Server>, key: int, i: nat)
    requires ByWsrep(v) && WsrepPick(v, l, key) && i < |l|
    ensures key >= 0 ==>
              && key < |l| && l[key].state == Wsrep && l[key].url != v.vmaster.value.url
              && !l[key].isRelay && !l[key].isFull
    ensures && l[i].state == Wsrep && l[i].url != v.vmaster.value.url && !l[i].isRelay && !l[i].isFull
            && l[i].hasBinlog && (l[i].haveNoMasterOnStart ==> v.conf.failRestartUnsafe)
            ==> 0 <= key <= i
  {
    assert WsrepCandidate(v, l[i]) ==> key != -1;
  }

  /** Exclusions of the elected server and, with replication checks on, the state of its replication; the second check
      made after the election, on the same snapshot, cannot cancel the failover. */
  lemma ElectedIsSound(v: View, l: seq<Server>, key: int)
    requires FailoverPick(v, l, key) && key >= 0
    ensures IsSlaveElectable(v, l[key])
    ensures !l[key].ignored && l[key].sourceCluster == v.conf.clusterName && !l[key].isRelay && !l[key].isFull
    ensures !l[key].isMaintenance && l[key].hasBinlog && l[key].meetsPrerequisites
    ensures !(v.conf.multiMaster && l[key].state == Master)
    ensures l[key].haveNoMasterOnStart ==> v.conf.failRestartUnsafe
    ensures l[key].status.Some? && v.master.Some?
    ensures v.conf.rplChecks ==>
              && l[key].status.value.sqlRunning != "No"
              && (v.conf.failMaxDelay != -1 && l[key].status.value.secondsBehind.Some? ==>
                    l[key].status.value.secondsBehind.value <= v.conf.failMaxDelay)
              && (v.conf.failSync && l[key].haveSemiSync ==> l[key].semiSyncSlave)
              && (v.master.value.state != Failed ==> l[key].status.value.ioRunning != "No")
    ensures v.conf.failoverMdevCheck ==> !l[key].hasMdevIssue
  {
    ElectableIff(v, l[key]);
  }
}
