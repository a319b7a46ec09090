/** Choosing the server to promote while the master is alive. */
module SwitchoverElection {
  import opened Prelude
  import opened Coordinates
  import opened Snapshot

  /** Passes every filter that comes before preference is looked at. */
  predicate Passes(v: View, s: Server)
    requires v.master.Some?
  {
    && !IsChild(v, s)
    && !s.ignored
    && !s.isFull
    && !s.isRelay
    && s.hasBinlog
    && !(v.conf.multiMaster && s.state.Master?)
    && IsSlaveElectableForSwitchover(v, s)
    && IsSlaveElectable(v, s)
  }

  predicate Rigged(v: View, s: Server)
    requires v.master.Some?
  {
    Passes(v, s) && IsInPreferedHosts(v, s)
  }

  /** Takes part in the comparison of sequences and positions. */
  predicate Survives(v: View, s: Server)
    requires v.master.Some?
  {
    && Passes(v, s)
    && !(s.haveNoMasterOnStart && !v.conf.failRestartUnsafe)
    && '.' in LogFile(s)
  }

  /** i is the first index where the metric, positive, is largest among the survivors. */
  ghost predicate FirstBest(v: View, l: seq<Server>, byPos: bool, i: int)
    requires v.master.Some?
  {
    && 0 <= i < |l| && Survives(v, l[i]) && Weight(v, l[i], byPos) > 0
    && (forall j :: 0 <= j < |l| && Survives(v, l[j]) ==> Weight(v, l[j], byPos) <= Weight(v, l[i], byPos))
    && (forall j :: 0 <= j < i && Survives(v, l[j]) ==> Weight(v, l[j], byPos) < Weight(v, l[i], byPos))
  }

  function Weight(v: View, s: Server, byPos: bool): nat
    requires v.master.Some? && Survives(v, s)
  {
    if byPos then Position(s) else Sequence(v, s)
  }

  ghost predicate NoWeight(v: View, l: seq<Server>, byPos: bool)
    requires v.master.Some?
  {
    forall j :: 0 <= j < |l| && Survives(v, l[j]) ==> Weight(v, l[j], byPos) == 0
  }

  /** The first preferred server that passes; failing that the first with the highest sequence;
      failing that the first with the highest position; failing that nobody. */
  ghost predicate SwitchoverPick(v: View, l: seq<Server>, key: int)
    requires v.master.Some?
  {
    if exists i :: 0 <= i < |l| && Rigged(v, l[i])
    then 0 <= key < |l| && Rigged(v, l[key]) && forall i :: 0 <= i < key ==> !Rigged(v, l[i])
    else if !NoWeight(v, l, false) then FirstBest(v, l, false, key)
    else if !NoWeight(v, l, true) then FirstBest(v, l, true, key)
    else key == -1
  }

  datatype Verdict = Skipped | RiggedFor | Weighed(seqNo: nat, pos: nat)

  function VerdictOn(v: View, s: Server): Verdict
    requires v.master.Some?
  {
    if Rigged(v, s) then RiggedFor
    else if Survives(v, s) then Weighed(Sequence(v, s), Position(s))
    else Skipped
  }

  /** The body of the election loop, for one server. */
  method Examine(v: View, s: Server) returns (r: Verdict)
    requires v.master.Some?
    ensures r == VerdictOn(v, s)
  {
    if IsChild(v, s) {
      return Skipped;
    }
    if s.ignored {
      return Skipped;
    }
    if s.isFull {
      return Skipped;
    }
    if s.isRelay {
      return Skipped;
    }
    if !s.hasBinlog && !s.ignored {
      return Skipped;
    }
    if v.conf.multiMaster && s.state.Master? {
      return Skipped;
    }
    if !IsSlaveElectableForSwitchover(v, s) {
      return Skipped;
    }
    if !IsSlaveElectable(v, s) {
      return Skipped;
    }
    if IsInPreferedHosts(v, s) {
      return RiggedFor;
    }
    if s.haveNoMasterOnStart && !v.conf.failRestartUnsafe {
      return Skipped;
    }
    // An electable server has a replication status, so no placeholder position is ever used here.
    var pos := ReadCoordinate(LogFile(s), LogOffset(s));
    if pos.None? {
      return Skipped;
    }
    var seqNo := AddSeqNos(SeqNos(v, s));
    return Weighed(seqNo, pos.value);
  }

  function Mark(r: Verdict, byPos: bool): nat {
    if !r.Weighed? then 0 else if byPos then r.pos else r.seqNo
  }

  /** m is the largest mark so far and hi, if it is positive, the first place it occurs. */
  ghost predicate Tracked(rs: seq<Verdict>, byPos: bool, m: nat, hi: nat) {
    && (forall i :: 0 <= i < |rs| ==> Mark(rs[i], byPos) <= m)
    && (m > 0 ==> hi < |rs| && Mark(rs[hi], byPos) == m && forall i :: 0 <= i < hi ==> Mark(rs[i], byPos) < m)
  }

  lemma TrackedAppend(rs: seq<Verdict>, r: Verdict, byPos: bool, m: nat, hi: nat)
    requires Tracked(rs, byPos, m, hi)
    ensures if Mark(r, byPos) > m then Tracked(rs + [r], byPos, Mark(r, byPos), |rs|)
            else Tracked(rs + [r], byPos, m, hi)
  {
  }

  /** Verdicts on the first servers of the list, none of which the election is rigged for. */
  ghost predicate NoneRigged(v: View, l: seq<Server>, rs: seq<Verdict>)
    requires v.master.Some?
  {
    |rs| <= |l| && forall k :: 0 <= k < |rs| ==> rs[k] == VerdictOn(v, l[k]) && !rs[k].RiggedFor?
  }

  lemma NoneRiggedAppend(v: View, l: seq<Server>, rs: seq<Verdict>, r: Verdict)
    requires v.master.Some? && NoneRigged(v, l, rs) && |rs| < |l| && r == VerdictOn(v, l[|rs|]) && !r.RiggedFor?
    ensures NoneRigged(v, l, rs + [r])
  {
  }

  lemma MarkIsWeight(v: View, s: Server, byPos: bool)
    requires v.master.Some? && !Rigged(v, s)
    ensures Mark(VerdictOn(v, s), byPos) == if Survives(v, s) then Weight(v, s, byPos) else 0
  {
  }

  lemma Conclude(v: View, l: seq<Server>, rs: seq<Verdict>, byPos: bool, m: nat, hi: nat)
    requires v.master.Some? && |rs| == |l| && NoneRigged(v, l, rs) && Tracked(rs, byPos, m, hi)
    ensures m == 0 <==> NoWeight(v, l, byPos)
    ensures m > 0 ==> FirstBest(v, l, byPos, hi)
  {
    forall i | 0 <= i < |l|
      ensures Mark(rs[i], byPos) == if Survives(v, l[i]) then Weight(v, l[i], byPos) else 0
    {
      MarkIsWeight(v, l[i], byPos);
    }
  }

  lemma RiggedAt(v: View, l: seq<Server>, rs: seq<Verdict>)
    requires v.master.Some? && NoneRigged(v, l, rs) && |rs| < |l| && VerdictOn(v, l[|rs|]).RiggedFor?
    ensures SwitchoverPick(v, l, |rs|)
  {
    assert Rigged(v, l[|rs|]);
    forall i | 0 <= i < |rs| ensures !Rigged(v, l[i]) {
      assert !VerdictOn(v, l[i]).RiggedFor?;
    }
  }

  lemma PickByWeight(v: View, l: seq<Server>, rs: seq<Verdict>, max: nat, hiseq: nat, maxpos: nat, hipos: nat)
    requires v.master.Some? && |rs| == |l| && NoneRigged(v, l, rs)
    requires Tracked(rs, false, max, hiseq) && Tracked(rs, true, maxpos, hipos)
    ensures SwitchoverPick(v, l, if max > 0 then hiseq else if maxpos > 0 then hipos else -1)
  {
    forall i | 0 <= i < |l| ensures !Rigged(v, l[i]) {
      assert !VerdictOn(v, l[i]).RiggedFor?;
    }
    Conclude(v, l, rs, false, max, hiseq);
    Conclude(v, l, rs, true, maxpos, hipos);
  }

  /** electSwitchoverCandidate. */
  method ElectSwitchoverCandidate(v: View, l: seq<Server>) returns (key: int)
    requires v.master.Some?
    ensures -1 <= key < |l|
    ensures SwitchoverPick(v, l, key)
  {
    var hiseq, hipos, max, maxpos := 0, 0, 0, 0;
    ghost var rs := [];
    for i := 0 to |l|
      invariant |rs| == i && NoneRigged(v, l, rs)
      invariant Tracked(rs, false, max, hiseq) && Tracked(rs, true, maxpos, hipos)
    {
      var r := Examine(v, l[i]);
      if r.RiggedFor? {
        RiggedAt(v, l, rs);
        return i;
      }
      TrackedAppend(rs, r, false, max, hiseq);
      TrackedAppend(rs, r, true, maxpos, hipos);
      NoneRiggedAppend(v, l, rs, r);
      rs := rs + [r];
      if r.Weighed? {
        if r.seqNo > max {
          max, hiseq := r.seqNo, i;
        }
        if r.pos > maxpos {
          maxpos, hipos := r.pos, i;
        }
      }
    }
    PickByWeight(v, l, rs, max, hiseq, maxpos, hipos);
    if max > 0 {
      return hiseq;
    }
    if maxpos > 0 {
      return hipos;
    }
    return -1;
  }

  /** The elected server also passes the tests of a failover, carries no errant transaction, and is of no lower
      release and no other filters than the master wherever the configuration asks for that. */
  lemma ElectedPasses(v: View, l: seq<Server>, key: int)
    requires v.master.Some? && SwitchoverPick(v, l, key) && key >= 0
    ensures key < |l| && IsSlaveElectable(v, l[key]) && !l[key].ignored && !l[key].isMaintenance && l[key].hasBinlog
    ensures !l[key].hasErrantTransactions && !l[key].isRelay && !l[key].isMaxscale && !l[key].isFull
    ensures l[key].sourceCluster == v.conf.clusterName && !(v.conf.multiMaster && l[key].state == Master)
    ensures var m := v.master.value;
            !v.conf.switchLowerRelease ==>
              l[key].major > m.major || (l[key].major == m.major && l[key].minor >= m.minor)
    ensures l[key].filtersReadable
    ensures v.conf.checkBinFilter ==> l[key].sameBinlogFilters
    ensures v.conf.checkReplFilter ==> l[key].sameReplicationFilters
    ensures v.conf.rplChecks ==>
              && (v.conf.switchGtidCheck ==> l[key].sameGtid)
              && (v.conf.switchSync && l[key].haveSemiSync ==> l[key].semiSyncSlave)
              && l[key].status.value.secondsBehind.Some?
  {
    assert Passes(v, l[key]);
  }

  /** Passes both tests, and is neither full nor without binlog nor, among several masters, one of them. */
  predicate Sound(v: View, s: Server)
    requires v.master.Some?
  {
    && IsSlaveElectableForSwitchover(v, s) && IsSlaveElectable(v, s)
    && !s.isFull && s.hasBinlog && !(v.conf.multiMaster && s.state == Master)
  }

  /** A server listed as preferred, by address or by name, that passes the tests decides the election: the first such.
      */
  lemma PreferredFirst(v: View, l: seq<Server>, key: int, i: nat)
    requires v.master.Some? && SwitchoverPick(v, l, key) && i < |l| && Sound(v, l[i])
    requires l[i].url in v.conf.preferedHosts || l[i].name in v.conf.preferedHosts
    ensures 0 <= key <= i && (l[key].url in v.conf.preferedHosts || l[key].name in v.conf.preferedHosts)
  {
    assert Rigged(v, l[i]);
  }

  /** Without a preferred candidate nobody that takes part has executed more of the master's domain than the elected.
      */
  lemma NobodyExecutedMore(v: View, l: seq<Server>, key: int, j: nat, mine: nat, theirs: nat)
    requires v.master.Some? && v.master.value.state != Failed && SwitchoverPick(v, l, key) && key >= 0
    requires forall i :: 0 <= i < |l| ==> l[i].url !in v.conf.preferedHosts && l[i].name !in v.conf.preferedHosts
    requires j < |l| && Sound(v, l[j]) && '.' in l[j].status.value.masterLogFile
    requires l[j].haveNoMasterOnStart ==> v.conf.failRestartUnsafe
    requires l[key].status.Some?
    requires OnlyEntry(l[key].slaveGtid, v.master.value.domainId, mine)
    requires OnlyEntry(l[j].slaveGtid, v.master.value.domainId, theirs)
    requires l[key].slaveGtid[mine].seqNo < TWO_TO_64 && l[j].slaveGtid[theirs].seqNo < TWO_TO_64
    ensures l[j].slaveGtid[theirs].seqNo <= l[key].slaveGtid[mine].seqNo
  {
    assert Survives(v, l[j]);
    ExecutedSequence(v, l[key], mine);
    ExecutedSequence(v, l[j], theirs);
    SequenceNotAhead(v, l, key, j);
  }

  lemma ExecutedSequence(v: View, s: Server, k: nat)
    requires v.master.Some? && v.master.value.state != Failed && s.status.Some?
    requires OnlyEntry(s.slaveGtid, v.master.value.domainId, k) && s.slaveGtid[k].seqNo < TWO_TO_64
    ensures Sequence(v, s) == s.slaveGtid[k].seqNo
  {
    RankedByExecuted(v, s, k);
  }

  lemma SequenceNotAhead(v: View, l: seq<Server>, key: int, j: nat)
    requires v.master.Some? && SwitchoverPick(v, l, key) && key >= 0 && j < |l| && Survives(v, l[j])
    requires forall i :: 0 <= i < |l| ==> l[i].url !in v.conf.preferedHosts && l[i].name !in v.conf.preferedHosts
    ensures key < |l| && Sequence(v, l[j]) <= Sequence(v, l[key])
  {
    forall i | 0 <= i < |l| ensures !Rigged(v, l[i]) {
    }
    if Sequence(v, l[j]) > 0 {
      assert Weight(v, l[j], false) > 0;
      assert FirstBest(v, l, false, key);
    }
  }
}
