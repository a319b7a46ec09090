/** Who leads and who follows, across any number of leader changes. */
module Membership {
  import opened Prelude

  datatype Members<T> = Members(master: T, slaves: seq<T>)

  /** Removal as ServerMonitor.delete does it: the last entry takes the freed place. */
  function SwapRemove<T>(s: seq<T>, k: nat): (r: seq<T>)
    requires k < |s|
    ensures |r| == |s| - 1
  {
    s[k := s[|s| - 1]][..|s| - 1]
  }

  lemma SwapRemoveMultiset<T>(s: seq<T>, k: nat)
    requires k < |s|
    ensures multiset(s) == multiset(SwapRemove(s, k)) + multiset{s[k]}
  {
    var t := s[k := s[|s| - 1]];
    assert t == t[..|s| - 1] + [t[|s| - 1]];
    if k < |s| - 1 {
      assert multiset(t) == multiset(s) - multiset{s[k]} + multiset{s[|s| - 1]};
    }
  }

  datatype Change = Switchover(key: nat) | Failover(key: nat) | Refused

  /** The lists after one call: a switchover keeps the old master as a follower,
      a failover drops it, a refusal changes nothing. */
  function Apply<T>(m: Members<T>, c: Change): Members<T>
    requires Legal(m, c)
  {
    match c
    case Switchover(k) => Members(m.slaves[k], SwapRemove(m.slaves, k) + [m.master])
    case Failover(k) => Members(m.slaves[k], SwapRemove(m.slaves, k))
    case Refused => m
  }

  predicate Legal<T>(m: Members<T>, c: Change) {
    c.Refused? || c.key < |m.slaves|
  }

  function Everyone<T>(m: Members<T>): multiset<T> { multiset{m.master} + multiset(m.slaves) }

  /** The master is no follower and no follower is listed twice. */
  ghost predicate Disjoint<T>(m: Members<T>) { Distinct([m.master] + m.slaves) }

  ghost predicate LegalRun<T>(m: Members<T>, cs: seq<Change>)
    decreases |cs|
  {
    cs == [] || (Legal(m, cs[0]) && LegalRun(Apply(m, cs[0]), cs[1..]))
  }

  ghost function Run<T>(m: Members<T>, cs: seq<Change>): Members<T>
    requires LegalRun(m, cs)
    decreases |cs|
  {
    if cs == [] then m else Run(Apply(m, cs[0]), cs[1..])
  }

  /** The masters given up by the failovers of a run. */
  ghost function Lost<T>(m: Members<T>, cs: seq<Change>): multiset<T>
    requires LegalRun(m, cs)
    decreases |cs|
  {
    if cs == [] then multiset{}
    else (if cs[0].Failover? then multiset{m.master} else multiset{}) + Lost(Apply(m, cs[0]), cs[1..])
  }

  lemma ApplyConserves<T>(m: Members<T>, c: Change)
    requires Legal(m, c)
    ensures Everyone(Apply(m, c)) + (if c.Failover? then multiset{m.master} else multiset{}) == Everyone(m)
  {
    if !c.Refused? {
      SwapRemoveMultiset(m.slaves, c.key);
    }
  }

  /** Nobody appears from nowhere and nobody is lost except the masters that failed. */
  lemma {:induction false} RunConserves<T>(m: Members<T>, cs: seq<Change>)
    requires LegalRun(m, cs)
    ensures Everyone(Run(m, cs)) + Lost(m, cs) == Everyone(m)
    decreases |cs|
  {
    if cs != [] {
      ApplyConserves(m, cs[0]);
      RunConserves(Apply(m, cs[0]), cs[1..]);
    }
  }

  lemma DisjointMultiset<T>(m: Members<T>)
    ensures Disjoint(m) <==> forall x :: x in Everyone(m) ==> Everyone(m)[x] == 1
  {
    DistinctMultiset([m.master] + m.slaves);
    assert multiset([m.master] + m.slaves) == Everyone(m);
  }

  /** The master never ends up among its own followers, in any run. */
  lemma RunKeepsDisjoint<T>(m: Members<T>, cs: seq<Change>)
    requires LegalRun(m, cs) && Disjoint(m)
    ensures Disjoint(Run(m, cs)) && Run(m, cs).master !in Run(m, cs).slaves
  {
    RunConserves(m, cs);
    DisjointMultiset(m);
    var r := Run(m, cs);
    forall x | x in Everyone(r) ensures Everyone(r)[x] == 1 {
      assert x in Everyone(m) && Everyone(m)[x] >= Everyone(r)[x];
    }
    DisjointMultiset(r);
    forall k | 0 <= k < |r.slaves| ensures r.slaves[k] != r.master {
      var all := [r.master] + r.slaves;
      assert all[0] == r.master && all[k + 1] == r.slaves[k];
    }
  }

  /** Switchovers alone preserve the membership exactly. */
  lemma {:induction false} SwitchoversLoseNobody<T>(m: Members<T>, cs: seq<Change>)
    requires LegalRun(m, cs) && forall i :: 0 <= i < |cs| ==> !cs[i].Failover?
    ensures Everyone(Run(m, cs)) == Everyone(m)
    decreases |cs|
  {
    if cs != [] {
      ApplyConserves(m, cs[0]);
      SwitchoversLoseNobody(Apply(m, cs[0]), cs[1..]);
    }
  }

  lemma {:induction false} RunAppend<T>(m: Members<T>, cs: seq<Change>, c: Change)
    requires LegalRun(m, cs) && Legal(Run(m, cs), c)
    ensures LegalRun(m, cs + [c]) && Run(m, cs + [c]) == Apply(Run(m, cs), c)
    decreases |cs|
  {
    if cs == [] {
      assert [] + [c] == [c] && [c][1..] == [];
    } else {
      assert (cs + [c])[0] == cs[0] && (cs + [c])[1..] == cs[1..] + [c];
      RunAppend(Apply(m, cs[0]), cs[1..], c);
    }
  }
}
