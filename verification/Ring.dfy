/** Multi-master ring: building it, and closing it around a lost server. */
module Ring {
  import opened Prelude

  /** A replication channel: where it points, the id its source last reported, and
      whether both of its threads run. */
  datatype Channel = Channel(host: string, port: string, serverId: nat, running: bool)

  /** A server of the ring. `lastSeen` is the channel it had when it was declared failed. */
  datatype Node = Node(id: nat, host: string, port: string, ip: string, failed: bool,
                       channel: Option<Channel>, lastSeen: Option<Channel>)

  function Url(n: Node): string { n.host + ":" + n.port }

  function IpUrl(n: Node): string { n.ip + ":" + n.port }

  predicate PointsAt(c: Option<Channel>, n: Node) { c.Some? && c.value.host == n.host && c.value.port == n.port }

  predicate SameId(a: Node, b: Node) { a.id == b.id }

  predicate SameAddress(a: Node, b: Node) { a.host == b.host && a.port == b.port }

  predicate Reports(a: Node, b: Node) { a.channel.Some? && a.channel.value.running && a.channel.value.serverId == b.id }

  /** Distinct ids and addresses, and channels that, while running, report the id of the server
      they are connected to. */
  ghost predicate WellFormed(s: seq<Node>) {
    && (forall i, j {:trigger SameId(s[i], s[j])} :: 0 <= i < |s| && 0 <= j < |s| && SameId(s[i], s[j]) ==> i == j)
    && (forall i, j {:trigger SameAddress(s[i], s[j])} ::
          0 <= i < |s| && 0 <= j < |s| && SameAddress(s[i], s[j]) ==> i == j)
    && (forall i, j {:trigger Reports(s[i], s[j])} ::
          0 <= i < |s| && 0 <= j < |s| && s[i].channel.Some? && s[i].channel.value.running ==>
          (Reports(s[i], s[j]) <==> PointsAt(s[i].channel, s[j])))
  }

  /** No server answers at another one's host and port, by name or by IP address. */
  ghost predicate DistinctUrls(s: seq<Node>) {
    forall i, j {:trigger Answers(s[i], Url(s[j]))} ::
      0 <= i < |s| && 0 <= j < |s| && Answers(s[i], Url(s[j])) ==> i == j
  }

  /** At most one server is at the address a channel points to. */
  lemma AddressUnique(s: seq<Node>, c: Option<Channel>, i: nat, j: nat)
    requires WellFormed(s) && i < |s| && j < |s| && PointsAt(c, s[i]) && PointsAt(c, s[j])
    ensures i == j
  {
    assert SameAddress(s[i], s[j]);
  }

  // ---- Lookups, first match in list order ----

  /** One comparison of the source lookup: the reported id while both threads run, else the address. */
  predicate Replicates(slave: Node, server: Node) {
    && server.id != slave.id
    && slave.channel.Some?
    && if slave.channel.value.running then slave.channel.value.serverId == server.id
       else PointsAt(slave.channel, server)
  }

  /** The first server from number j on that the channel comes from. */
  function SourceFrom(s: seq<Node>, slave: Node, j: nat): (m: Option<nat>)
    requires j <= |s|
    ensures m.Some? ==> j <= m.value < |s| && Replicates(slave, s[m.value])
    ensures m.Some? ==> forall i :: j <= i < m.value ==> !Replicates(slave, s[i])
    ensures m.None? ==> forall i :: j <= i < |s| ==> !Replicates(slave, s[i])
    decreases |s| - j
  {
    if j == |s| then None else if Replicates(slave, s[j]) then Some(j) else SourceFrom(s, slave, j + 1)
  }

  method GetMasterFromReplication(s: seq<Node>, slave: Node) returns (m: Option<nat>)
    ensures m == SourceFrom(s, slave, 0)
  {
    for j := 0 to |s|
      invariant SourceFrom(s, slave, 0) == SourceFrom(s, slave, j)
    {
      if s[j].id == slave.id {
        continue;
      }
      if slave.channel.Some? {
        if slave.channel.value.running {
          if slave.channel.value.serverId == s[j].id {
            return Some(j);
          }
        } else if slave.channel.value.host == s[j].host && slave.channel.value.port == s[j].port {
          return Some(j);
        }
      }
    }
    return None;
  }

  /** The ring child of server d by the lookup: the first server that replicates from d. */
  ghost predicate IsChild(s: seq<Node>, d: nat, c: Option<nat>)
    requires d < |s|
  {
    match c
    case Some(i) => i < |s| && Replicates(s[i], s[d]) && forall j :: 0 <= j < i ==> !Replicates(s[j], s[d])
    case None => forall j :: 0 <= j < |s| ==> !Replicates(s[j], s[d])
  }

  /** While both threads run the source is the server with the reported id, wherever the channel's address points;
      otherwise it is the server at that address. */
  lemma SourceReported(s: seq<Node>, slave: Node, m: nat)
    requires SourceFrom(s, slave, 0) == Some(m)
    ensures m < |s| && slave.channel.Some? && s[m].id != slave.id
    ensures var c := slave.channel.value;
            if c.running then s[m].id == c.serverId else s[m].host == c.host && s[m].port == c.port
    ensures var c := slave.channel.value;
            forall i :: 0 <= i < m && s[i].id != slave.id ==>
              if c.running then s[i].id != c.serverId else !(s[i].host == c.host && s[i].port == c.port)
  {
  }

  /** With well-formed servers the source found is the only one there is. */
  lemma SourceUnique(s: seq<Node>, i: nat, j: nat, k: nat)
    requires WellFormed(s) && i < |s| && j < |s| && k < |s| && Replicates(s[i], s[j]) && Replicates(s[i], s[k])
    ensures j == k
  {
    if s[i].channel.value.running {
      assert SameId(s[j], s[k]);
    } else {
      AddressUnique(s, s[i].channel, j, k);
    }
  }

  method GetRingChildServer(s: seq<Node>, d: nat) returns (child: Option<nat>)
    requires WellFormed(s) && d < |s|
    ensures IsChild(s, d, child)
  {
    for i := 0 to |s|
      invariant forall j :: 0 <= j < i ==> !Replicates(s[j], s[d])
    {
      if s[i].id != s[d].id {
        var m := GetMasterFromReplication(s, s[i]);
        if m.Some? && s[m.value].id == s[d].id {
          assert SameId(s[m.value], s[d]);
          return Some(i);
        }
        if m.Some? && Replicates(s[i], s[d]) {
          SourceUnique(s, i, d, m.value);
        }
      }
    }
    return None;
  }

  function LastSeen(n: Node): Option<Channel> { if n.lastSeen.Some? then n.lastSeen else n.channel }

  predicate Answers(n: Node, url: string) { Url(n) == url || IpUrl(n) == url }

  /** A URL with a port is compared with host and port, one without with the host alone. */
  predicate AnswersTo(n: Node, url: string) {
    if ':' in url then Answers(n, url) else n.host == url || n.ip == url
  }

  method GetServerFromURL(s: seq<Node>, url: string) returns (r: Option<nat>)
    ensures r.Some? ==> r.value < |s| && AnswersTo(s[r.value], url)
    ensures r.Some? ==> forall j :: 0 <= j < r.value ==> !AnswersTo(s[j], url)
    ensures r.None? ==> forall j :: 0 <= j < |s| ==> !AnswersTo(s[j], url)
  {
    for j := 0 to |s|
      invariant forall i :: 0 <= i < j ==> !AnswersTo(s[i], url)
    {
      if ':' in url {
        if s[j].host + ":" + s[j].port == url || s[j].ip + ":" + s[j].port == url {
          return Some(j);
        }
      } else if s[j].host == url || s[j].ip == url {
        return Some(j);
      }
    }
    return None;
  }

  ghost predicate IsParent(s: seq<Node>, d: nat, p: Option<nat>)
    requires d < |s|
  {
    var c := LastSeen(s[d]);
    match p
    case Some(i) => c.Some? && i < |s| && Answers(s[i], c.value.host + ":" + c.value.port)
                    && forall j :: 0 <= j < i ==> !Answers(s[j], c.value.host + ":" + c.value.port)
    case None => c.None? || forall j :: 0 <= j < |s| ==> !Answers(s[j], c.value.host + ":" + c.value.port)
  }

  method GetRingParentServer(s: seq<Node>, d: nat) returns (parent: Option<nat>)
    requires d < |s|
    ensures IsParent(s, d, parent)
  {
    var c := LastSeen(s[d]);
    if c.None? {
      return None;
    }
    var url := c.value.host + ":" + c.value.port;
    assert url[|c.value.host|] == ':';
    parent := GetServerFromURL(s, url);
  }

  /** CHANGE MASTER: the channel points to the new source and has not connected to it yet. */
  function Repointed(n: Node, source: Node): Node {
    n.(channel := Some(Channel(source.host, source.port, 0, false)))
  }

  /** The servers after CloseRing: the child found, if it can be reached, replicates from the parent found. */
  ghost predicate Closed(s: seq<Node>, d: nat, s': seq<Node>)
    requires d < |s|
  {
    exists child, parent :: IsChild(s, d, child) && IsParent(s, d, parent) && s' == Spliced(s, child, parent)
  }

  function Spliced(s: seq<Node>, child: Option<nat>, parent: Option<nat>): seq<Node> {
    if child.None? || parent.None? || child.value >= |s| || parent.value >= |s| || s[child.value].failed then s
    else s[child.value := Repointed(s[child.value], s[parent.value])]
  }

  /** The ring as the monitor holds it: servers whose channels it changes. */
  class RingCluster {
    var servers: seq<Node>
    var vmaster: Option<nat>

    constructor (servers: seq<Node>)
      ensures this.servers == servers && vmaster == None
    {
      this.servers, vmaster := servers, None;
    }

    /** The ring branch of BootstrapReplication; a failed CHANGE MASTER stops it. */
    method BootstrapRing(reachable: nat -> bool) returns (ok: bool)
      modifies this
      ensures ok <==> forall k :: 0 <= k < |old(servers)| && !old(servers)[k].failed ==> reachable(k)
      ensures ok ==> servers == Bootstrapped(old(servers))
      ensures ok && (exists k :: 0 <= k < |servers| && !servers[k].failed) ==> vmaster == Some(0)
    {
      var n := |servers|;
      for key := 0 to n
        invariant |servers| == n == |old(servers)|
        invariant forall k :: 0 <= k < key ==> servers[k] == Bootstrapped(old(servers))[k]
        invariant forall k :: key <= k < n ==> servers[k] == old(servers)[k]
        invariant forall k :: 0 <= k < key && !old(servers)[k].failed ==> reachable(k)
        invariant (exists k :: 0 <= k < key && !servers[k].failed) ==> vmaster == Some(0)
      {
        if servers[key].failed {
          continue;
        }
        var i := (n + key - 1) % n;
        if !reachable(key) {
          return false;
        }
        ModPrev(key, n);
        servers := servers[key := Repointed(servers[key], servers[i])];
        vmaster := Some(0);
      }
      ok := true;
    }

    /** CloseRing; `changes` says whether the CHANGE MASTER on the child goes through. */
    method CloseRing(d: nat, changes: bool) returns (ok: bool)
      requires WellFormed(servers) && d < |servers|
      modifies this`servers
      ensures if changes then Closed(old(servers), d, servers) else servers == old(servers)
      ensures ok <==> !IsChild(old(servers), d, None) && !IsParent(old(servers), d, None)
    {
      var child := GetRingChildServer(servers, d);
      var parent := GetRingParentServer(servers, d);
      assert Spliced(servers, child, parent) == Spliced(old(servers), child, parent);
      if child.None? {
        return false;
      }
      if parent.None? {
        return false;
      }
      if changes && !servers[child.value].failed {
        servers := servers[child.value := Repointed(servers[child.value], servers[parent.value])];
      }
      return true;
    }

    /** The ring's part of topology discovery and the virtual failover that follows, when nothing holds it back. */
    method MonitorRing(unsafe: bool, changes: bool)
      requires WellFormed(servers)
      modifies this`servers
      ensures if changes then Repairs(old(servers), servers) else servers == old(servers)
    {
      var broken := false;
      var master: Option<nat> := None;
      for i := 0 to |servers|
        invariant servers == old(servers)
        invariant broken <==> exists k :: 0 <= k < i && OffCycle(servers, k)
        invariant master == if broken then FailedFrom(servers, 0) else None
      {
        if !servers[i].failed && servers[i].channel.Some? {
          var cycling := HasCycling(servers, i);
          if !cycling {
            assert OffCycle(servers, i);
            broken := true;
            master := GetFailedServer(servers);
          }
        }
      }
      if master.None? {
        master := FailedMasterDiscovery(servers, unsafe);
      }
      assert master == Pick(servers);
      if master.Some? {
        var ok := CloseRing(master.value, changes);
      }
    }
  }

  // ---- Noticing that the ring is broken ----

  /** n steps along the recorded channels, from server i. */
  function Walk(s: seq<Node>, i: nat, n: nat): (at: Option<nat>)
    requires i < |s|
    ensures at.Some? ==> at.value < |s|
  {
    if n == 0 then Some(i) else
      var m := Walk(s, i, n - 1);
      if m.None? then None else SourceFrom(s, s[m.value], 0)
  }

  /** Following the recorded channels from server i comes back to it. */
  ghost predicate Cycles(s: seq<Node>, i: nat)
    requires i < |s|
  {
    exists n :: 1 <= n <= |s| && Walk(s, i, n) == Some(i)
  }

  lemma {:induction false} WalkEnds(s: seq<Node>, i: nat, n: nat, k: nat)
    requires i < |s| && Walk(s, i, n).None? && n <= k
    ensures Walk(s, i, k).None?
  {
    if n < k {
      WalkEnds(s, i, n, k - 1);
    }
  }

  method HasCycling(s: seq<Node>, i: nat) returns (cycling: bool)
    requires WellFormed(s) && i < |s|
    ensures cycling <==> Cycles(s, i)
  {
    var current := i;
    for n := 0 to |s|
      invariant current < |s| && Walk(s, i, n) == Some(current)
      invariant forall k :: 1 <= k <= n ==> Walk(s, i, k) != Some(i)
    {
      var m := GetMasterFromReplication(s, s[current]);
      assert Walk(s, i, n + 1) == m;
      if m.None? {
        forall k | 1 <= k <= |s| ensures Walk(s, i, k) != Some(i) {
          if k > n {
            WalkEnds(s, i, n + 1, k);
          }
        }
        return false;
      }
      if s[m.value].id == s[i].id {
        assert SameId(s[m.value], s[i]);
        return true;
      }
      current := m.value;
    }
    return false;
  }

  /** A live server that replicates and is on no recorded cycle. */
  ghost predicate OffCycle(s: seq<Node>, i: nat)
    requires i < |s|
  {
    !s[i].failed && s[i].channel.Some? && !Cycles(s, i)
  }

  ghost predicate Detects(s: seq<Node>) { exists i :: 0 <= i < |s| && OffCycle(s, i) }

  function FailedFrom(s: seq<Node>, j: nat): (f: Option<nat>)
    requires j <= |s|
    ensures f.Some? ==> j <= f.value < |s| && s[f.value].failed && forall i :: j <= i < f.value ==> !s[i].failed
    ensures f.None? ==> forall i :: j <= i < |s| ==> !s[i].failed
    decreases |s| - j
  {
    if j == |s| then None else if s[j].failed then Some(j) else FailedFrom(s, j + 1)
  }

  method GetFailedServer(s: seq<Node>) returns (f: Option<nat>)
    ensures f == FailedFrom(s, 0)
  {
    for j := 0 to |s|
      invariant FailedFrom(s, 0) == FailedFrom(s, j)
    {
      if s[j].failed {
        return Some(j);
      }
    }
    return None;
  }

  /** The server is at the host, by name or by IP address, and port that the channel points to. */
  predicate AddressedBy(c: Option<Channel>, n: Node) {
    c.Some? && (n.host == c.value.host || n.ip == c.value.host) && n.port == c.value.port
  }

  /** The first live server, from number j on, that replicates. */
  function FollowerFrom(s: seq<Node>, j: nat): (f: Option<nat>)
    requires j <= |s|
    ensures f.Some? ==> j <= f.value < |s| && !s[f.value].failed && s[f.value].channel.Some?
    ensures f.Some? ==> forall i :: j <= i < f.value ==> s[i].failed || s[i].channel.None?
    ensures f.None? ==> forall i :: j <= i < |s| ==> s[i].failed || s[i].channel.None?
    decreases |s| - j
  {
    if j == |s| then None else if !s[j].failed && s[j].channel.Some? then Some(j) else FollowerFrom(s, j + 1)
  }

  /** The first failed server, from number j on, that the channel points to. */
  function SourceLostFrom(s: seq<Node>, c: Option<Channel>, j: nat): (f: Option<nat>)
    requires j <= |s|
    ensures f.Some? ==> j <= f.value < |s| && s[f.value].failed && AddressedBy(c, s[f.value])
    ensures f.None? ==> forall i :: j <= i < |s| && s[i].failed ==> !AddressedBy(c, s[i])
    decreases |s| - j
  {
    if j == |s| then None else if s[j].failed && AddressedBy(c, s[j]) then Some(j) else SourceLostFrom(s, c, j + 1)
  }

  /** The failed server that the first live follower of the list points to. */
  function Assumed(s: seq<Node>): (f: Option<nat>)
    ensures f.Some? ==> f.value < |s| && s[f.value].failed
  {
    var i := FollowerFrom(s, 0);
    if i.None? then None else SourceLostFrom(s, s[i.value].channel, 0)
  }

  /** Some live follower points to the candidate. */
  method MultipleSlavesUp(s: seq<Node>, candidate: nat) returns (up: bool)
    requires candidate < |s|
    ensures up <==> exists i :: 0 <= i < |s| && !s[i].failed && AddressedBy(s[i].channel, s[candidate])
  {
    for i := 0 to |s|
      invariant forall j :: 0 <= j < i && !s[j].failed ==> !AddressedBy(s[j].channel, s[candidate])
    {
      if !s[i].failed && AddressedBy(s[i].channel, s[candidate]) {
        return true;
      }
    }
    return false;
  }

  /** FailedMasterDiscovery: the follower asked points to the server found, so it is always up for it. */
  method FailedMasterDiscovery(s: seq<Node>, unsafe: bool) returns (f: Option<nat>)
    ensures f == Assumed(s)
  {
    var first := FollowerFrom(s, 0);
    if first.None? {
      return None;
    }
    var c := s[first.value].channel;
    for k := 0 to |s|
      invariant SourceLostFrom(s, c, 0) == SourceLostFrom(s, c, k)
    {
      if s[k].failed && AddressedBy(c, s[k]) {
        var up := MultipleSlavesUp(s, k);
        if unsafe || up {
          return Some(k);
        }
        return None;
      }
    }
    return None;
  }

  /** A failed server is found by its IP address as well as by its name. */
  lemma AssumedByAddress(s: seq<Node>, i: nat, f: nat)
    requires i < |s| && f < |s| && !s[i].failed && s[i].channel.Some? && s[f].failed
    requires forall j :: 0 <= j < i ==> s[j].failed || s[j].channel.None?
    requires s[i].channel.value.port == s[f].port
    requires s[i].channel.value.host == s[f].host || s[i].channel.value.host == s[f].ip
    ensures Assumed(s).Some? && Assumed(s).value <= f
  {
    assert FollowerFrom(s, 0) == Some(i);
    LostFound(s, s[i].channel, 0, f);
  }

  lemma {:induction false} LostFound(s: seq<Node>, c: Option<Channel>, j: nat, f: nat)
    requires j <= f < |s| && s[f].failed && AddressedBy(c, s[f])
    ensures SourceLostFrom(s, c, j).Some? && SourceLostFrom(s, c, j).value <= f
    decreases f - j
  {
    if j < f {
      LostFound(s, c, j + 1, f);
    }
  }

  /** The server a monitoring turn takes for the lost one: if some live server is on no recorded cycle, the first
      failed server of the list, whichever was lost last; otherwise the failed server that the first follower points
      to. */
  ghost function Pick(s: seq<Node>): (f: Option<nat>)
    ensures f.Some? ==> f.value < |s| && s[f.value].failed
  {
    if Detects(s) && FailedFrom(s, 0).Some? then FailedFrom(s, 0) else Assumed(s)
  }

  /** What one monitoring turn does to a ring: it is closed around the server picked, if any. */
  ghost predicate Repairs(s: seq<Node>, s': seq<Node>) {
    match Pick(s)
    case Some(f) => Closed(s, f, s')
    case None => s' == s
  }

  function Prev(k: nat, n: nat): nat
    requires k < n
  {
    if k == 0 then n - 1 else k - 1
  }

  lemma ModPrev(k: nat, n: nat)
    requires k < n
    ensures (n + k - 1) % n == Prev(k, n)
  {
    var x := n + k - 1;
    if k == 0 {
      assert x < n;
    } else {
      var q := x / n;
      assert n * q + x % n == x && 0 <= x % n < n;
      CancelLess(n, 0, q);
      CancelLess(n, q, 2);
    }
  }

  lemma CancelLess(n: nat, a: int, b: int)
    requires n * a < n * b
    ensures a < b
  {
  }

  function Bootstrapped(s: seq<Node>): (r: seq<Node>)
    ensures |r| == |s|
  {
    seq(|s|, k requires 0 <= k < |s| => if s[k].failed then s[k] else Repointed(s[k], s[Prev(k, |s|)]))
  }

  // ---- One replication cycle ----

  /** The server at position k replicates from the one before it in the order. */
  ghost predicate Linked(s: seq<Node>, order: seq<nat>, k: nat)
    requires k < |order| && forall i :: 0 <= i < |order| ==> order[i] < |s|
  {
    PointsAt(s[order[k]].channel, s[order[Prev(k, |order|)]])
  }

  /** The live servers, in this cyclic order, each replicating from the one before it. */
  ghost predicate IsRing(s: seq<Node>, order: seq<nat>) {
    && order != []
    && Distinct(order)
    && (forall k :: 0 <= k < |order| ==> order[k] < |s| && !s[order[k]].failed)
    && (forall i :: 0 <= i < |s| && !s[i].failed ==> i in order)
    && (forall k {:trigger Linked(s, order, k)} :: 0 <= k < |order| ==> Linked(s, order, k))
  }

  ghost predicate OnOneCycle(s: seq<Node>) { exists order :: IsRing(s, order) }

  function Range(n: nat): (r: seq<nat>)
    ensures |r| == n && forall i :: 0 <= i < n ==> r[i] == i
  {
    seq(n, i requires 0 <= i < n => i)
  }

  predicate FollowsFailed(s: seq<Node>, i: nat)
    requires i < |s|
  {
    !s[i].failed && s[Prev(i, |s|)].failed
  }

  /** If no live server follows a failed one in the list, going round from a live server finds only live ones. */
  lemma {:induction false} AllLiveBelow(s: seq<Node>, a: nat, k: nat)
    requires a < |s| && k <= a && !s[a].failed
    requires forall i {:trigger FollowsFailed(s, i)} :: 0 <= i < |s| ==> !FollowsFailed(s, i)
    ensures !s[k].failed
    decreases a - k
  {
    if k < a {
      AllLiveBelow(s, a, k + 1);
      assert !FollowsFailed(s, k + 1);
    }
  }

  lemma AllLive(s: seq<Node>, a: nat, k: nat)
    requires a < |s| && k < |s| && !s[a].failed
    requires forall i {:trigger FollowsFailed(s, i)} :: 0 <= i < |s| ==> !FollowsFailed(s, i)
    ensures !s[k].failed
  {
    AllLiveBelow(s, a, 0);
    assert !FollowsFailed(s, 0);
    AllLiveBelow(s, |s| - 1, k);
  }

  lemma RepointedPoints(n: Node, source: Node)
    ensures PointsAt(Repointed(n, source).channel, source)
  {
  }

  lemma BootstrapAllLive(s: seq<Node>)
    requires s != [] && forall k :: 0 <= k < |s| ==> !s[k].failed
    ensures IsRing(Bootstrapped(s), Range(|s|))
  {
    var r, order := Bootstrapped(s), Range(|s|);
    forall k | 0 <= k < |s| ensures Linked(r, order, k) {
      assert r[k] == Repointed(s[k], s[Prev(k, |s|)]);
    }
    forall i | 0 <= i < |r| ensures i in order {
      assert order[i] == i;
    }
  }

  lemma BootstrapWithFailed(s: seq<Node>, order: seq<nat>)
    requires WellFormed(s) && !(forall k :: 0 <= k < |s| ==> !s[k].failed)
    ensures !IsRing(Bootstrapped(s), order)
  {
    if order != [] && order[0] < |s| && !s[order[0]].failed {
      var c := LiveAfterFailed(s, order[0]);
      RepointedPoints(s[c], s[Prev(c, |s|)]);
      DanglingBreaks(s, Bootstrapped(s), c, Prev(c, |s|), order);
    }
  }

  /** Bootstrap puts the live servers on one cycle exactly when no server is failed. */
  lemma BootstrapIsRing(s: seq<Node>)
    requires WellFormed(s) && s != []
    ensures OnOneCycle(Bootstrapped(s)) <==> forall k :: 0 <= k < |s| ==> !s[k].failed
  {
    if forall k :: 0 <= k < |s| ==> !s[k].failed {
      BootstrapAllLive(s);
    } else {
      forall order: seq<nat> ensures !IsRing(Bootstrapped(s), order) {
        BootstrapWithFailed(s, order);
      }
    }
  }

  /** Servers as they are bootstrapped: all live, with clean records and distinct addresses. */
  ghost predicate Ready(s: seq<Node>) {
    && s != [] && WellFormed(s) && DistinctUrls(s)
    && forall i :: 0 <= i < |s| ==> !s[i].failed && s[i].lastSeen.None?
  }

  /** Bootstrap starts the ring in the state that repairs rely on. */
  lemma BootstrapIsHealthy(s: seq<Node>)
    requires Ready(s)
    ensures Healthy(Bootstrapped(s), Range(|s|))
  {
    var r := Bootstrapped(s);
    BootstrapAllLive(s);
    forall i, j | 0 <= i < |r| && 0 <= j < |r| && SameId(r[i], r[j]) ensures i == j {
      assert SameId(s[i], s[j]);
    }
    forall i, j | 0 <= i < |r| && 0 <= j < |r| && SameAddress(r[i], r[j]) ensures i == j {
      assert SameAddress(s[i], s[j]);
    }
    forall i, j | 0 <= i < |r| && 0 <= j < |r| && Answers(r[i], Url(r[j])) ensures i == j {
      assert Answers(s[i], Url(s[j]));
    }
  }

  /** With a live and a failed server in the list, some live server follows a failed one. */
  lemma LiveAfterFailed(s: seq<Node>, a: nat) returns (c: nat)
    requires a < |s| && !s[a].failed && !(forall k :: 0 <= k < |s| ==> !s[k].failed)
    ensures c < |s| && FollowsFailed(s, c)
  {
    var f :| 0 <= f < |s| && s[f].failed;
    if forall i {:trigger FollowsFailed(s, i)} :: 0 <= i < |s| ==> !FollowsFailed(s, i) {
      AllLive(s, a, f);
    }
    c :| 0 <= c < |s| && FollowsFailed(s, c);
  }

  // ---- Following replication upstream ----

  /** n steps upstream along a ring, from position k of its order. */
  function Upstream(k: nat, n: nat, len: nat): (at: nat)
    requires k < len && n <= len
    ensures at < len
  {
    if n <= k then k - n else k + len - n
  }

  ghost predicate Path(s: seq<Node>, p: seq<nat>) {
    && p != [] && (forall i :: 0 <= i < |p| ==> p[i] < |s|)
    && forall i :: 0 <= i < |p| - 1 ==> PointsAt(s[p[i]].channel, s[p[i + 1]])
  }

  /** On a ring every replication path from a live server is the ring order read upstream: it comes back
      to its start after as many steps as there are live servers, not sooner, and passes every one. */
  lemma {:induction false} PathFollowsRing(s: seq<Node>, order: seq<nat>, k: nat, p: seq<nat>, n: nat)
    requires WellFormed(s) && IsRing(s, order) && k < |order| && Path(s, p) && p[0] == order[k]
    requires n < |p| && n <= |order|
    ensures p[n] == order[Upstream(k, n, |order|)]
    decreases n
  {
    var len := |order|;
    if n > 0 {
      PathFollowsRing(s, order, k, p, n - 1);
      var at := Upstream(k, n - 1, len);
      assert Linked(s, order, at);
      AddressUnique(s, s[order[at]].channel, p[n], order[Prev(at, len)]);
      assert Prev(at, len) == Upstream(k, n, len);
    }
  }

  lemma OneCycle(s: seq<Node>, order: seq<nat>, k: nat, p: seq<nat>)
    requires WellFormed(s) && IsRing(s, order) && k < |order| && Path(s, p) && p[0] == order[k] && |p| == |order| + 1
    ensures p[|order|] == p[0]
    ensures forall n :: 0 < n < |order| ==> p[n] != p[0]
    ensures forall i :: 0 <= i < |s| && !s[i].failed ==> i in p
  {
    var len := |order|;
    forall n | 0 <= n <= len ensures p[n] == order[Upstream(k, n, len)] {
      PathFollowsRing(s, order, k, p, n);
    }
    forall i | 0 <= i < |s| && !s[i].failed ensures i in p {
      assert i in order;
      var j :| 0 <= j < len && order[j] == i;
      var n := if j <= k then k - j else k + len - j;
      assert Upstream(k, n, len) == j;
      assert p[n] == i;
    }
  }

  // ---- Closing the ring around a lost server ----

  /** The order without position k. */
  function Without(order: seq<nat>, k: nat): (r: seq<nat>)
    requires k < |order|
    ensures |r| == |order| - 1
    ensures forall i :: 0 <= i < |r| ==> r[i] == if i < k then order[i] else order[i + 1]
  {
    order[..k] + order[k + 1..]
  }

  function Next(k: nat, n: nat): nat
    requires k < n
  {
    if k == n - 1 then 0 else k + 1
  }

  /** A ring that has just lost the server at position k: its child still points at it, and the
      channel last seen on it points at its parent. */
  ghost predicate Broken(s: seq<Node>, order: seq<nat>, k: nat) {
    && k < |order| && 2 <= |order|
    && Distinct(order)
    && (forall i :: 0 <= i < |order| ==> order[i] < |s| && (s[order[i]].failed <==> i == k))
    && (forall i :: 0 <= i < |s| && !s[i].failed ==> i in order)
    && PointsAt(LastSeen(s[order[k]]), s[order[Prev(k, |order|)]])
    && (forall i {:trigger Linked(s, order, i)} :: 0 <= i < |order| && i != k ==> Linked(s, order, i))
  }

  lemma ReplicatesIffPoints(s: seq<Node>, i: nat, j: nat)
    requires WellFormed(s) && i < |s| && j < |s| && i != j
    ensures Replicates(s[i], s[j]) <==> PointsAt(s[i].channel, s[j])
  {
    assert !SameId(s[i], s[j]);
    assert s[i].channel.Some? && s[i].channel.value.running ==> (Reports(s[i], s[j]) <==> PointsAt(s[i].channel, s[j]));
  }

  /** Among the live servers only the child replicates from the lost one. */
  lemma LiveChild(s: seq<Node>, order: seq<nat>, k: nat, i: nat)
    requires WellFormed(s) && Broken(s, order, k) && i < |s| && !s[i].failed
    ensures Replicates(s[i], s[order[k]]) <==> i == order[Next(k, |order|)]
  {
    var d, n := order[k], |order|;
    assert i in order;
    var at :| 0 <= at < n && order[at] == i;
    assert at != k;
    ReplicatesIffPoints(s, i, d);
    assert Linked(s, order, at);
    if PointsAt(s[i].channel, s[d]) {
      AddressUnique(s, s[i].channel, d, order[Prev(at, n)]);
      assert Prev(at, n) == k;
    }
    assert order[at] == order[Next(k, n)] <==> at == Next(k, n);
  }

  lemma ParentFound(s: seq<Node>, order: seq<nat>, k: nat, parent: Option<nat>)
    requires DistinctUrls(s) && Broken(s, order, k) && IsParent(s, order[k], parent)
    ensures parent == Some(order[Prev(k, |order|)])
  {
    var q := order[Prev(k, |order|)];
    assert Url(s[q]) == LastSeen(s[order[k]]).value.host + ":" + LastSeen(s[order[k]]).value.port;
    forall j | 0 <= j < |s| ensures Answers(s[j], Url(s[q])) <==> j == q {
    }
  }

  /** No failed server listed before the live child still replicates from the lost server. */
  ghost predicate Unshadowed(s: seq<Node>, order: seq<nat>, k: nat)
    requires Broken(s, order, k)
  {
    forall j :: 0 <= j < order[Next(k, |order|)] && s[j].failed ==> !Replicates(s[j], s[order[k]])
  }

  lemma ChildFound(s: seq<Node>, order: seq<nat>, k: nat, child: Option<nat>)
    requires WellFormed(s) && Broken(s, order, k) && IsChild(s, order[k], child)
    ensures child == Some(order[Next(k, |order|)]) <==> Unshadowed(s, order, k)
    ensures child.Some? && (child != Some(order[Next(k, |order|)]) ==> s[child.value].failed)
  {
    var c := order[Next(k, |order|)];
    LiveChild(s, order, k, c);
    if child.Some? && !s[child.value].failed {
      LiveChild(s, order, k, child.value);
    }
    if Unshadowed(s, order, k) {
      forall j | 0 <= j < c ensures !Replicates(s[j], s[order[k]]) {
        if !s[j].failed {
          LiveChild(s, order, k, j);
        }
      }
    }
  }

  /** The survivors are exactly the members of the shorter order. */
  lemma SpliceMembers(s: seq<Node>, order: seq<nat>, k: nat, s': seq<Node>)
    requires Broken(s, order, k) && |s'| == |s| && forall i :: 0 <= i < |s| ==> s'[i].failed == s[i].failed
    ensures Without(order, k) != [] && Distinct(Without(order, k))
    ensures forall i :: 0 <= i < |order| - 1 ==> Without(order, k)[i] < |s'| && !s'[Without(order, k)[i]].failed
    ensures forall i :: 0 <= i < |s'| && !s'[i].failed ==> i in Without(order, k)
  {
    WithoutDistinct(order, k);
  }

  /** The splice itself: the child takes over the lost server's source. */
  lemma SpliceCloses(s: seq<Node>, order: seq<nat>, k: nat)
    requires WellFormed(s) && Broken(s, order, k)
    ensures IsRing(Spliced(s, Some(order[Next(k, |order|)]), Some(order[Prev(k, |order|)])), Without(order, k))
  {
    var s' := Spliced(s, Some(order[Next(k, |order|)]), Some(order[Prev(k, |order|)]));
    SpliceMembers(s, order, k, s');
    forall i | 0 <= i < |order| - 1 ensures Linked(s', Without(order, k), i) {
      SpliceLink(s, order, k, i);
    }
  }

  function Kept(i: nat, k: nat): nat { if i < k then i else i + 1 }

  lemma KeptPrev(n: nat, k: nat, i: nat)
    requires k < n && i < n - 1
    ensures Kept(Prev(i, n - 1), k) == if Kept(i, k) == Next(k, n) then Prev(k, n) else Prev(Kept(i, k), n)
  {
  }

  lemma SpliceLink(s: seq<Node>, order: seq<nat>, k: nat, i: nat)
    requires Broken(s, order, k) && i < |order| - 1
    requires forall j :: 0 <= j < |order| - 1 ==> Without(order, k)[j] < |s|
    ensures Linked(Spliced(s, Some(order[Next(k, |order|)]), Some(order[Prev(k, |order|)])), Without(order, k), i)
  {
    var n := |order|;
    var at := Kept(i, k);
    SplicePlaces(order, k, i);
    if at == Next(k, n) {
      PointsAfterSplice(s, order[Next(k, n)], order[Prev(k, n)], order[at], order[Prev(k, n)]);
    } else {
      assert Linked(s, order, at) && order[at] != order[Next(k, n)];
      PointsAfterSplice(s, order[Next(k, n)], order[Prev(k, n)], order[at], order[Prev(at, n)]);
    }
  }

  /** Where a member of the shorter order and the one before it stood. */
  lemma SplicePlaces(order: seq<nat>, k: nat, i: nat)
    requires k < |order| && i < |order| - 1
    ensures var n, at := |order|, Kept(i, k);
            && at < n && at != k && Without(order, k)[i] == order[at]
            && Without(order, k)[Prev(i, n - 1)] == order[if at == Next(k, n) then Prev(k, n) else Prev(at, n)]
  {
    KeptPrev(|order|, k, i);
  }

  lemma PointsAfterSplice(s: seq<Node>, c: nat, q: nat, a: nat, b: nat)
    requires c < |s| && q < |s| && a < |s| && b < |s| && !s[c].failed
    requires if a == c then b == q else PointsAt(s[a].channel, s[b])
    ensures PointsAt(Spliced(s, Some(c), Some(q))[a].channel, Spliced(s, Some(c), Some(q))[b])
  {
  }

  lemma WithoutDistinct(order: seq<nat>, k: nat)
    requires k < |order| && Distinct(order)
    ensures Distinct(Without(order, k))
    ensures forall i :: i in order && i != order[k] ==> i in Without(order, k)
  {
    forall i | i in order && i != order[k] ensures i in Without(order, k) {
      var at :| 0 <= at < |order| && order[at] == i;
      assert Without(order, k)[if at < k then at else at - 1] == i;
    }
  }

  /** A live server that points at a failed one is on no ring. */
  lemma DanglingBreaks(s: seq<Node>, s': seq<Node>, c: nat, d: nat, order: seq<nat>)
    requires WellFormed(s) && |s'| == |s| && c < |s| && d < |s| && s'[d].failed && !s'[c].failed
    requires forall i :: 0 <= i < |s| ==> s'[i].host == s[i].host && s'[i].port == s[i].port
    requires PointsAt(s'[c].channel, s[d])
    ensures !IsRing(s', order)
  {
    if c in order {
      var k :| 0 <= k < |order| && order[k] == c;
      var q := order[Prev(k, |order|)];
      assert IsRing(s', order) ==> Linked(s', order, k);
      if q < |s| && PointsAt(s'[c].channel, s[q]) {
        AddressUnique(s, s'[c].channel, d, q);
      }
    }
  }

  /** CloseRing puts the survivors back on one cycle exactly when no failed server, listed before
      the live child, is still recorded as replicating from the lost one. */
  lemma CloseRingExact(s: seq<Node>, order: seq<nat>, k: nat, s': seq<Node>)
    requires WellFormed(s) && DistinctUrls(s) && Broken(s, order, k) && Closed(s, order[k], s')
    ensures OnOneCycle(s') <==> Unshadowed(s, order, k)
    ensures Unshadowed(s, order, k) ==> IsRing(s', Without(order, k))
  {
    var d := order[k];
    var child, parent :| IsChild(s, d, child) && IsParent(s, d, parent) && s' == Spliced(s, child, parent);
    ChildFound(s, order, k, child);
    ParentFound(s, order, k, parent);
    if Unshadowed(s, order, k) {
      SpliceCloses(s, order, k);
    } else {
      var c := order[Next(k, |order|)];
      LiveChild(s, order, k, c);
      ReplicatesIffPoints(s, c, order[k]);
      forall o: seq<nat> ensures !IsRing(s', o) {
        DanglingBreaks(s, s', c, order[k], o);
      }
    }
  }

  // ---- Any sequence of failures ----

  /** A server is declared failed while it is not the leader: its channel is put aside. */
  function Die(s: seq<Node>, d: nat): seq<Node>
    requires d < |s|
  {
    s[d := s[d].(failed := true, lastSeen := s[d].channel, channel := None)]
  }

  /** The leader is declared failed: the monitor keeps its channel. */
  function DieAsLeader(s: seq<Node>, d: nat): seq<Node>
    requires d < |s|
  {
    s[d := s[d].(failed := true)]
  }

  /** Monitoring refreshes what it knows of the channels; where they point does not change. */
  ghost predicate Refreshed(s: seq<Node>, s': seq<Node>) {
    && |s'| == |s| && WellFormed(s') && DistinctUrls(s')
    && forall i :: 0 <= i < |s| ==>
         && s'[i].(channel := None) == s[i].(channel := None)
         && (s'[i].channel.None? <==> s[i].channel.None?)
         && (s[i].channel.Some? ==> s'[i].channel.value.host == s[i].channel.value.host
                                    && s'[i].channel.value.port == s[i].channel.value.port)
  }

  /** A healthy ring: one cycle, and nothing put aside on live servers. Failed servers may keep a channel. */
  ghost predicate Healthy(s: seq<Node>, order: seq<nat>) {
    && WellFormed(s) && DistinctUrls(s) && IsRing(s, order)
    && forall i :: 0 <= i < |s| && !s[i].failed ==> s[i].lastSeen.None?
  }

  /** The virtual leader is declared failed with its channel kept, any other server with its channel put aside. */
  function Lose(s: seq<Node>, d: nat, leader: Option<nat>): seq<Node>
    requires d < |s|
  {
    if leader == Some(d) then DieAsLeader(s, d) else Die(s, d)
  }

  /** One loss and the monitoring turn that answers it, with channels refreshed before and after. */
  ghost predicate Answered(s: seq<Node>, d: nat, leader: Option<nat>, s': seq<Node>)
    requires d < |s|
  {
    exists s1, s2 :: Refreshed(Lose(s, d, leader), s1) && Repairs(s1, s2) && Refreshed(s2, s')
  }

  lemma LossBreaks(s: seq<Node>, order: seq<nat>, k: nat, leader: Option<nat>, s1: seq<Node>)
    requires Healthy(s, order) && k < |order| && 2 <= |order| && Refreshed(Lose(s, order[k], leader), s1)
    ensures WellFormed(s1) && DistinctUrls(s1) && Broken(s1, order, k)
    ensures leader == Some(order[k]) ==> Linked(s1, order, k)
    ensures leader != Some(order[k]) ==> s1[order[k]].channel.None?
  {
    assert Linked(s, order, k);
    forall i | 0 <= i < |order| && i != k ensures Linked(s1, order, i) {
      assert Linked(s, order, i);
    }
  }

  // ---- Which losses are noticed ----

  lemma {:induction false} DistinctBound(order: seq<nat>, n: nat)
    requires Distinct(order) && forall i :: 0 <= i < |order| ==> order[i] < n
    ensures |order| <= n
    decreases n
  {
    assert order != [] ==> order[0] < n;
    if n > 0 && n - 1 in order {
      var k :| 0 <= k < |order| && order[k] == n - 1;
      WithoutDistinct(order, k);
      DistinctBound(Without(order, k), n - 1);
    } else if n > 0 {
      DistinctBound(order, n - 1);
    }
  }

  lemma LinkedSource(s: seq<Node>, order: seq<nat>, at: nat)
    requires WellFormed(s) && at < |order| && 2 <= |order| && Distinct(order)
    requires (forall i :: 0 <= i < |order| ==> order[i] < |s|) && Linked(s, order, at)
    ensures SourceFrom(s, s[order[at]], 0) == Some(order[Prev(at, |order|)])
  {
    var i, j := order[at], order[Prev(at, |order|)];
    ReplicatesIffPoints(s, i, j);
    SourceUnique(s, i, j, SourceFrom(s, s[i], 0).value);
  }

  lemma {:induction false} WalkRound(s: seq<Node>, order: seq<nat>, at: nat, n: nat)
    requires WellFormed(s) && at < |order| && 2 <= |order| && Distinct(order) && n <= |order|
    requires forall i :: 0 <= i < |order| ==> order[i] < |s|
    requires forall i {:trigger Linked(s, order, i)} :: 0 <= i < |order| ==> Linked(s, order, i)
    ensures Walk(s, order[at], n) == Some(order[Upstream(at, n, |order|)])
  {
    if n > 0 {
      WalkRound(s, order, at, n - 1);
      var up := Upstream(at, n - 1, |order|);
      assert Linked(s, order, up);
      LinkedSource(s, order, up);
      assert Prev(up, |order|) == Upstream(at, n, |order|);
    }
  }

  /** A lost leader's channel stays on record and completes the recorded cycle: nobody is off it. */
  lemma LeaderLossKeepsCycle(s: seq<Node>, order: seq<nat>, k: nat)
    requires WellFormed(s) && Broken(s, order, k) && Linked(s, order, k)
    ensures !Detects(s)
  {
    DistinctBound(order, |s|);
    forall i | 0 <= i < |s| && !s[i].failed ensures Cycles(s, i) {
      assert i in order;
      var at :| 0 <= at < |order| && order[at] == i;
      WalkRound(s, order, at, |order|);
      assert Upstream(at, |order|, |order|) == at;
    }
  }

  /** Any other loss leaves its child off every recorded cycle. */
  lemma OtherLossNoticed(s: seq<Node>, order: seq<nat>, k: nat)
    requires WellFormed(s) && Broken(s, order, k) && s[order[k]].channel.None?
    ensures Detects(s)
  {
    var next := Next(k, |order|);
    var c, d := order[next], order[k];
    assert Linked(s, order, next) && Prev(next, |order|) == k;
    LinkedSource(s, order, next);
    assert Walk(s, c, 0) == Some(c);
    assert Walk(s, c, 1) == Some(d);
    assert Walk(s, c, 2).None?;
    forall n | 1 <= n <= |s| ensures Walk(s, c, n) != Some(c) {
      if n >= 2 {
        WalkEnds(s, c, 2, n);
      }
    }
    assert OffCycle(s, c);
  }

  // ---- Which losses are repaired ----

  predicate NoneFailedBefore(s: seq<Node>, d: nat)
    requires d <= |s|
  {
    forall j :: 0 <= j < d ==> !s[j].failed
  }

  ghost predicate Positions(s: seq<Node>, order: seq<nat>, k: nat) {
    k < |order| && forall i :: 0 <= i < |order| ==> order[i] < |s|
  }

  /** No failed server listed before the child of the server at position k keeps a channel that points at it. */
  ghost predicate Clear(s: seq<Node>, order: seq<nat>, k: nat)
    requires Positions(s, order, k)
  {
    forall j :: 0 <= j < order[Next(k, |order|)] && s[j].failed ==> !PointsAt(s[j].channel, s[order[k]])
  }

  /** The loss of the server at position k will be repaired: a virtual leader's child is the first survivor of the
      list, any other server is listed before all failed ones, and the child is not mistaken. */
  ghost predicate Mended(s: seq<Node>, order: seq<nat>, k: nat, leader: Option<nat>)
    requires Positions(s, order, k)
  {
    && (if leader == Some(order[k])
        then forall j :: 0 <= j < order[Next(k, |order|)] && j != order[k] ==> s[j].failed
        else NoneFailedBefore(s, order[k]))
    && Clear(s, order, k)
  }

  /** The live child of a lost server that still points at it, also once its channel is refreshed, is on no cycle. */
  lemma StaysBroken(s: seq<Node>, order: seq<nat>, k: nat, s': seq<Node>)
    requires WellFormed(s) && Broken(s, order, k) && Refreshed(s, s')
    ensures !OnOneCycle(s')
  {
    var next := Next(k, |order|);
    assert Linked(s, order, next) && Prev(next, |order|) == k;
    AddressesKept(s, s');
    forall o: seq<nat> ensures !IsRing(s', o) {
      DanglingBreaks(s, s', order[next], order[k], o);
    }
  }

  lemma AddressesKept(s: seq<Node>, s': seq<Node>)
    requires Refreshed(s, s')
    ensures forall i :: 0 <= i < |s| ==>
              s'[i].host == s[i].host && s'[i].port == s[i].port && s'[i].failed == s[i].failed
  {
    forall i | 0 <= i < |s| ensures s'[i].host == s[i].host && s'[i].port == s[i].port && s'[i].failed == s[i].failed {
      assert s'[i].(channel := None) == s[i].(channel := None);
    }
  }

  /** No live server replicates from one that failed earlier. */
  lemma EarlierFailedIsNoSource(s: seq<Node>, order: seq<nat>, k: nat, f: nat, i: nat)
    requires WellFormed(s) && Broken(s, order, k) && f < |s| && i < |s| && s[f].failed && f != order[k] && !s[i].failed
    ensures !Replicates(s[i], s[f])
  {
    assert i in order;
    var at :| 0 <= at < |order| && order[at] == i;
    assert Linked(s, order, at);
    ReplicatesIffPoints(s, i, f);
    if PointsAt(s[i].channel, s[f]) {
      AddressUnique(s, s[i].channel, f, order[Prev(at, |order|)]);
    }
  }

  /** Closing the ring around a server that failed earlier changes nothing. */
  lemma ClosedAroundEarlier(s: seq<Node>, order: seq<nat>, k: nat, f: nat, s': seq<Node>)
    requires WellFormed(s) && Broken(s, order, k) && f < |s| && s[f].failed && f != order[k] && Closed(s, f, s')
    ensures s' == s
  {
    forall i | 0 <= i < |s| && !s[i].failed ensures !Replicates(s[i], s[f]) {
      EarlierFailedIsNoSource(s, order, k, f, i);
    }
  }

  lemma RefreshKeepsRing(s: seq<Node>, order: seq<nat>, s': seq<Node>)
    requires IsRing(s, order) && Refreshed(s, s')
    ensures IsRing(s', order)
  {
    forall k | 0 <= k < |order| ensures Linked(s', order, k) {
      assert Linked(s, order, k);
    }
  }

  /** Both channels point to the same place, or there is none. */
  predicate SameTarget(a: Option<Channel>, b: Option<Channel>) {
    (a.None? <==> b.None?) && (a.Some? && b.Some? ==> a.value.host == b.value.host && a.value.port == b.value.port)
  }

  /** What a step keeps: addresses, failures, what was put aside, and where the channels of failed servers point. */
  ghost predicate Preserves(s: seq<Node>, s': seq<Node>) {
    && |s'| == |s|
    && forall i :: 0 <= i < |s| ==>
         && s'[i].host == s[i].host && s'[i].port == s[i].port
         && s'[i].failed == s[i].failed && s'[i].lastSeen == s[i].lastSeen
         && (s[i].failed ==> SameTarget(s'[i].channel, s[i].channel))
  }

  lemma RefreshPreserves(s: seq<Node>, s': seq<Node>)
    requires Refreshed(s, s')
    ensures Preserves(s, s')
  {
    forall i | 0 <= i < |s| ensures s'[i].host == s[i].host && s'[i].port == s[i].port && s'[i].failed == s[i].failed
                                    && s'[i].lastSeen == s[i].lastSeen {
      assert s'[i].(channel := None) == s[i].(channel := None);
    }
  }

  lemma RepairPreserves(s: seq<Node>, s': seq<Node>)
    requires Repairs(s, s')
    ensures Preserves(s, s')
  {
  }

  lemma AnswerPreserves(s: seq<Node>, d: nat, leader: Option<nat>, s': seq<Node>)
    requires d < |s| && Answered(s, d, leader, s')
    ensures Preserves(Lose(s, d, leader), s')
  {
    var s1: seq<Node>, s2: seq<Node> :| Refreshed(Lose(s, d, leader), s1) && Repairs(s1, s2) && Refreshed(s2, s');
    RefreshPreserves(Lose(s, d, leader), s1);
    RepairPreserves(s1, s2);
    RefreshPreserves(s2, s');
  }

  /** The child is mistaken after the loss exactly when a failed server before it kept a channel to the lost one. */
  lemma ClearIff(s: seq<Node>, order: seq<nat>, k: nat, leader: Option<nat>, s1: seq<Node>)
    requires Healthy(s, order) && k < |order| && 2 <= |order| && Refreshed(Lose(s, order[k], leader), s1)
    requires WellFormed(s1) && Broken(s1, order, k)
    ensures Unshadowed(s1, order, k) <==> Clear(s, order, k)
  {
    var d, c := order[k], order[Next(k, |order|)];
    RefreshPreserves(Lose(s, d, leader), s1);
    forall j | 0 <= j < c && j != d && s[j].failed
      ensures s1[j].failed && (Replicates(s1[j], s1[d]) <==> PointsAt(s[j].channel, s[d]))
    {
      ReplicatesIffPoints(s1, j, d);
    }
  }

  /** A loss closed around the right server. */
  lemma RepairedAround(s: seq<Node>, order: seq<nat>, k: nat, leader: Option<nat>, s1: seq<Node>, s2: seq<Node>,
                       s': seq<Node>)
    requires Healthy(s, order) && k < |order| && 2 <= |order|
    requires Refreshed(Lose(s, order[k], leader), s1) && Closed(s1, order[k], s2) && Refreshed(s2, s')
    ensures OnOneCycle(s') <==> Clear(s, order, k)
    ensures Clear(s, order, k) ==> Healthy(s', Without(order, k))
  {
    LossBreaks(s, order, k, leader, s1);
    ClearIff(s, order, k, leader, s1);
    CloseRingExact(s1, order, k, s2);
    if Clear(s, order, k) {
      RefreshKeepsRing(s2, Without(order, k), s');
      assert IsRing(s', Without(order, k));
      LiveRecordsKept(s, order[k], leader, s1, s2, s');
    } else {
      ShadowedStays(s1, order, k, s2);
      StaysBroken(s2, order, k, s');
    }
  }

  lemma LiveRecordsKept(s: seq<Node>, d: nat, leader: Option<nat>, s1: seq<Node>, s2: seq<Node>, s': seq<Node>)
    requires d < |s| && forall i :: 0 <= i < |s| && !s[i].failed ==> s[i].lastSeen.None?
    requires Refreshed(Lose(s, d, leader), s1) && Closed(s1, d, s2) && Refreshed(s2, s')
    ensures forall i :: 0 <= i < |s'| && !s'[i].failed ==> s'[i].lastSeen.None?
  {
    RefreshPreserves(Lose(s, d, leader), s1);
    RefreshPreserves(s2, s');
  }

  lemma ShadowedStays(s: seq<Node>, order: seq<nat>, k: nat, s': seq<Node>)
    requires WellFormed(s) && Broken(s, order, k) && Closed(s, order[k], s') && !Unshadowed(s, order, k)
    ensures s' == s
  {
    var child, parent :|
      IsChild(s, order[k], child) && IsParent(s, order[k], parent) && s' == Spliced(s, child, parent);
    ChildFound(s, order, k, child);
  }

  lemma FirstFailedIs(s: seq<Node>, d: nat, s1: seq<Node>)
    requires d < |s| && |s1| == |s| && !s[d].failed
    requires forall i :: 0 <= i < |s| ==> (s1[i].failed <==> s[i].failed || i == d)
    ensures FailedFrom(s1, 0).Some? && (FailedFrom(s1, 0).value == d <==> NoneFailedBefore(s, d))
  {
  }

  /** A server that is not the leader: the first failed one is taken for it. */
  lemma OtherLossPick(s: seq<Node>, order: seq<nat>, k: nat, s1: seq<Node>)
    requires Healthy(s, order) && k < |order| && 2 <= |order| && Refreshed(Die(s, order[k]), s1)
    ensures Pick(s1).Some? && (Pick(s1).value == order[k] <==> NoneFailedBefore(s, order[k]))
  {
    LossBreaks(s, order, k, None, s1);
    OtherLossNoticed(s1, order, k);
    RefreshPreserves(Die(s, order[k]), s1);
    FirstFailedIs(s, order[k], s1);
  }

  /** At most one server is at the place a ring member's channel points to. */
  lemma AddressedOnce(s: seq<Node>, c: Option<Channel>, q: nat, j: nat)
    requires DistinctUrls(s) && q < |s| && j < |s| && PointsAt(c, s[q])
    ensures AddressedBy(c, s[j]) ==> j == q
    ensures AddressedBy(c, s[q])
  {
    if AddressedBy(c, s[j]) {
      assert Answers(s[j], Url(s[q]));
    }
  }

  /** The leader: it is found if and only if the first survivor of the list is its child. */
  lemma LeaderLossPick(s: seq<Node>, order: seq<nat>, k: nat)
    requires WellFormed(s) && DistinctUrls(s) && Broken(s, order, k) && Linked(s, order, k)
    ensures var first := forall j :: 0 <= j < order[Next(k, |order|)] ==> s[j].failed;
            Pick(s) == if first then Some(order[k]) else None
  {
    LeaderLossKeepsCycle(s, order, k);
    var next := Next(k, |order|);
    var c := order[next];
    assert Linked(s, order, next) && Prev(next, |order|) == k;
    var i := FollowerFrom(s, 0).value;
    assert i in order;
    var at :| 0 <= at < |order| && order[at] == i;
    assert Linked(s, order, at);
    var q := order[Prev(at, |order|)];
    forall j | 0 <= j < |s| ensures AddressedBy(s[i].channel, s[j]) <==> j == q {
      AddressedOnce(s, s[i].channel, q, j);
    }
    FirstSurvivor(s, order, k, i);
    PrevOnce(|order|, at, next);
    assert q == order[k] <==> i == c;
  }

  lemma PrevOnce(n: nat, a: nat, b: nat)
    requires a < n && b < n
    ensures Prev(a, n) == Prev(b, n) ==> a == b
  {
  }

  lemma FirstSurvivor(s: seq<Node>, order: seq<nat>, k: nat, i: nat)
    requires Broken(s, order, k) && FollowerFrom(s, 0) == Some(i)
    ensures i == order[Next(k, |order|)] <==> forall j :: 0 <= j < order[Next(k, |order|)] ==> s[j].failed
  {
    forall j | 0 <= j < |s| && !s[j].failed ensures s[j].channel.Some? {
      assert j in order;
      var at :| 0 <= at < |order| && order[at] == j;
      assert Linked(s, order, at);
    }
  }

  /** The survivors are on one cycle again after the loss of a server, and the turn that answers it, if and only if
      the loss is one that is mended. */
  lemma RepairIff(s: seq<Node>, order: seq<nat>, k: nat, leader: Option<nat>, s': seq<Node>)
    requires Healthy(s, order) && k < |order| && 2 <= |order| && Answered(s, order[k], leader, s')
    ensures OnOneCycle(s') <==> Mended(s, order, k, leader)
    ensures Mended(s, order, k, leader) ==> Healthy(s', Without(order, k))
  {
    var d := order[k];
    var s1: seq<Node>, s2: seq<Node> :| Refreshed(Lose(s, d, leader), s1) && Repairs(s1, s2) && Refreshed(s2, s');
    LossPick(s, order, k, leader, s1);
    if Pick(s1) == Some(d) {
      RepairedAround(s, order, k, leader, s1, s2, s');
    } else {
      NotRepaired(s, order, k, leader, s1, s2, s');
    }
  }

  lemma NotRepaired(s: seq<Node>, order: seq<nat>, k: nat, leader: Option<nat>, s1: seq<Node>, s2: seq<Node>,
                    s': seq<Node>)
    requires Healthy(s, order) && k < |order| && 2 <= |order|
    requires Refreshed(Lose(s, order[k], leader), s1) && Repairs(s1, s2) && Refreshed(s2, s')
    requires Pick(s1) != Some(order[k])
    ensures !OnOneCycle(s')
  {
    LossBreaks(s, order, k, leader, s1);
    if Pick(s1).Some? {
      ClosedAroundEarlier(s1, order, k, Pick(s1).value, s2);
    }
    StaysBroken(s1, order, k, s');
  }

  lemma LossPick(s: seq<Node>, order: seq<nat>, k: nat, leader: Option<nat>, s1: seq<Node>)
    requires Healthy(s, order) && k < |order| && 2 <= |order| && Refreshed(Lose(s, order[k], leader), s1)
    ensures Pick(s1) == Some(order[k]) && Clear(s, order, k) <==> Mended(s, order, k, leader)
  {
    if leader == Some(order[k]) {
      LossBreaks(s, order, k, leader, s1);
      LeaderLossPick(s1, order, k);
      RefreshPreserves(DieAsLeader(s, order[k]), s1);
    } else {
      OtherLossPick(s, order, k, s1);
    }
  }

  // ---- Any sequence of losses ----

  /** Where a member stands in an order. */
  function PlaceOf(order: seq<nat>, d: nat): (k: nat)
    requires d in order
    ensures k < |order| && order[k] == d
  {
    if order[0] == d then 0 else 1 + PlaceOf(order[1..], d)
  }

  function ParentIn(order: seq<nat>, d: nat): nat { if d in order then order[Prev(PlaceOf(order, d), |order|)] else d }

  function ChildIn(order: seq<nat>, d: nat): nat { if d in order then order[Next(PlaceOf(order, d), |order|)] else d }

  /** The order that is left after the first n losses. */
  function Remaining(order: seq<nat>, lost: seq<nat>, n: nat): seq<nat>
    requires n <= |lost|
  {
    if n == 0 then order else
      var rest := Remaining(order, lost, n - 1);
      if lost[n - 1] in rest then Without(rest, PlaceOf(rest, lost[n - 1])) else rest
  }

  /** Loss number i hits a virtual leader. */
  predicate HitsLeader(lost: seq<nat>, leaders: seq<Option<nat>>, i: nat)
    requires i < |lost| && i < |leaders|
  {
    leaders[i] == Some(lost[i])
  }

  /** An earlier lost leader, listed before the child of the server lost now, had that server as its source. */
  predicate Mistaken(order: seq<nat>, lost: seq<nat>, leaders: seq<Option<nat>>, i: nat, j: nat)
    requires j < i < |lost| && i < |leaders|
  {
    && HitsLeader(lost, leaders, j)
    && lost[j] < ChildIn(Remaining(order, lost, i), lost[i])
    && ParentIn(Remaining(order, lost, j), lost[j]) == lost[i]
  }

  /** Loss number i hits a leader whose child is the first survivor of the list, or another server listed before all
      those lost earlier; and no earlier lost leader is mistaken for the child. */
  predicate InTime(order: seq<nat>, lost: seq<nat>, leaders: seq<Option<nat>>, i: nat)
    requires i < |lost| && i < |leaders|
  {
    && (if HitsLeader(lost, leaders, i)
        then forall x :: x in Remaining(order, lost, i) && x != lost[i] ==>
               ChildIn(Remaining(order, lost, i), lost[i]) <= x
        else forall j :: 0 <= j < i ==> lost[i] < lost[j])
    && forall j :: 0 <= j < i ==> !Mistaken(order, lost, leaders, i, j)
  }

  /** Loss number i of a run and the turn that answers it; who is the virtual leader by then is left open. */
  ghost predicate Loses(states: seq<seq<Node>>, lost: seq<nat>, leaders: seq<Option<nat>>, i: nat) {
    && i < |lost| && i < |leaders| && i + 1 < |states|
    && lost[i] < |states[i]| && !states[i][lost[i]].failed && Answered(states[i], lost[i], leaders[i], states[i + 1])
  }

  /** What is on record of an earlier loss: a leader's channel, pointing at its source of the time, or nothing. */
  ghost predicate Recorded(s: seq<Node>, order: seq<nat>, lost: seq<nat>, leaders: seq<Option<nat>>, j: nat)
    requires j < |lost| && j < |leaders|
  {
    var q := ParentIn(Remaining(order, lost, j), lost[j]);
    && lost[j] < |s| && q < |s| && s[lost[j]].failed
    && if HitsLeader(lost, leaders, j) then PointsAt(s[lost[j]].channel, s[q]) else s[lost[j]].channel.None?
  }

  /** A ring from which n servers have been lost and that was repaired each time. */
  ghost predicate Lasting(s: seq<Node>, order: seq<nat>, lost: seq<nat>, leaders: seq<Option<nat>>, n: nat) {
    && n <= |lost| && n <= |leaders|
    && Healthy(s, Remaining(order, lost, n)) && |Remaining(order, lost, n)| + n == |order|
    && (forall i :: 0 <= i < |s| ==> (s[i].failed <==> i in lost[..n]))
    && (forall j :: 0 <= j < n ==> Recorded(s, order, lost, leaders, j))
  }

  lemma LostBefore(lost: seq<nat>, n: nat, s: seq<Node>)
    requires n < |lost| && lost[n] < |s| && !s[lost[n]].failed
    requires forall j :: 0 <= j < n ==> lost[j] < |s|
    requires forall i :: 0 <= i < |s| ==> (s[i].failed <==> i in lost[..n])
    ensures (forall j :: 0 <= j < n ==> lost[n] < lost[j]) <==> NoneFailedBefore(s, lost[n])
  {
    forall j | 0 <= j < n ensures lost[j] in lost[..n] && s[lost[j]].failed {
      assert lost[..n][j] == lost[j];
    }
  }

  lemma FirstLeft(s: seq<Node>, order: seq<nat>, k: nat)
    requires IsRing(s, order) && k < |order|
    ensures (forall x :: x in order && x != order[k] ==> order[Next(k, |order|)] <= x)
            <==> forall j :: 0 <= j < order[Next(k, |order|)] && j != order[k] ==> s[j].failed
  {
    forall j | 0 <= j < |s| ensures !s[j].failed <==> j in order {
    }
  }

  lemma ClearLeft(s: seq<Node>, order: seq<nat>, lost: seq<nat>, leaders: seq<Option<nat>>, n: nat, k: nat)
    requires n < |lost| && n < |leaders| && Lasting(s, order, lost, leaders, n)
    requires Positions(s, Remaining(order, lost, n), k)
    requires lost[n] in Remaining(order, lost, n) && k == PlaceOf(Remaining(order, lost, n), lost[n])
    ensures Clear(s, Remaining(order, lost, n), k) <==> forall j :: 0 <= j < n ==> !Mistaken(order, lost, leaders, n, j)
  {
    var rest := Remaining(order, lost, n);
    var c, d := rest[Next(k, |rest|)], lost[n];
    forall j | 0 <= j < n
      ensures Recorded(s, order, lost, leaders, j)
      ensures Mistaken(order, lost, leaders, n, j) <==> lost[j] < c && PointsAt(s[lost[j]].channel, s[d])
    {
      var q := ParentIn(Remaining(order, lost, j), lost[j]);
      assert Recorded(s, order, lost, leaders, j);
      if HitsLeader(lost, leaders, j) && PointsAt(s[lost[j]].channel, s[d]) {
        AddressUnique(s, s[lost[j]].channel, q, d);
      }
    }
    if x :| 0 <= x < c && s[x].failed && PointsAt(s[x].channel, s[d]) {
      var j :| 0 <= j < n && lost[..n][j] == x;
      assert Mistaken(order, lost, leaders, n, j);
    }
  }

  /** On a ring that lasted so far, a loss is mended if and only if it is in time. */
  lemma MendedIffInTime(s: seq<Node>, order: seq<nat>, lost: seq<nat>, leaders: seq<Option<nat>>, n: nat)
    requires n < |lost| && n < |leaders| && Lasting(s, order, lost, leaders, n) && lost[n] < |s| && !s[lost[n]].failed
    ensures var rest := Remaining(order, lost, n);
            && lost[n] in rest
            && (Mended(s, rest, PlaceOf(rest, lost[n]), leaders[n]) <==> InTime(order, lost, leaders, n))
  {
    var rest := Remaining(order, lost, n);
    assert lost[n] in rest;
    var k := PlaceOf(rest, lost[n]);
    ClearLeft(s, order, lost, leaders, n, k);
    FirstLeft(s, rest, k);
    forall j | 0 <= j < n ensures lost[j] < |s| {
      assert Recorded(s, order, lost, leaders, j);
    }
    LostBefore(lost, n, s);
  }

  lemma RecordedKept(s: seq<Node>, order: seq<nat>, lost: seq<nat>, leaders: seq<Option<nat>>, d: nat,
                     leader: Option<nat>, s': seq<Node>, j: nat)
    requires j < |lost| && j < |leaders| && Recorded(s, order, lost, leaders, j)
    requires d < |s| && !s[d].failed && Preserves(Lose(s, d, leader), s')
    ensures Recorded(s', order, lost, leaders, j)
  {
    var q := ParentIn(Remaining(order, lost, j), lost[j]);
    var mid := Lose(s, d, leader);
    assert mid[lost[j]] == s[lost[j]] && mid[q].host == s[q].host && mid[q].port == s[q].port;
  }

  lemma RecordedNow(s: seq<Node>, order: seq<nat>, lost: seq<nat>, leaders: seq<Option<nat>>, n: nat, s': seq<Node>)
    requires n < |lost| && n < |leaders|
    requires Healthy(s, Remaining(order, lost, n)) && lost[n] in Remaining(order, lost, n)
    requires lost[n] < |s| && Preserves(Lose(s, lost[n], leaders[n]), s')
    ensures Recorded(s', order, lost, leaders, n)
  {
    var rest, d := Remaining(order, lost, n), lost[n];
    var k := PlaceOf(rest, d);
    assert Linked(s, rest, k);
    var q := rest[Prev(k, |rest|)];
    var mid := Lose(s, d, leaders[n]);
    assert mid[q].host == s[q].host && mid[q].port == s[q].port;
  }

  lemma RecordsKept(s: seq<Node>, order: seq<nat>, lost: seq<nat>, leaders: seq<Option<nat>>, n: nat, s': seq<Node>)
    requires n < |lost| && n < |leaders| && Lasting(s, order, lost, leaders, n)
    requires lost[n] < |s| && !s[lost[n]].failed && Preserves(Lose(s, lost[n], leaders[n]), s')
    ensures forall j :: 0 <= j < n + 1 ==> Recorded(s', order, lost, leaders, j)
  {
    forall j | 0 <= j < n + 1 ensures Recorded(s', order, lost, leaders, j) {
      if j < n {
        RecordedKept(s, order, lost, leaders, lost[n], leaders[n], s', j);
      } else {
        assert lost[n] in Remaining(order, lost, n);
        RecordedNow(s, order, lost, leaders, n, s');
      }
    }
  }

  lemma FailuresKept(s: seq<Node>, lost: seq<nat>, n: nat, leader: Option<nat>, s': seq<Node>)
    requires n < |lost| && lost[n] < |s| && Preserves(Lose(s, lost[n], leader), s')
    requires forall i :: 0 <= i < |s| ==> (s[i].failed <==> i in lost[..n])
    ensures forall i :: 0 <= i < |s'| ==> (s'[i].failed <==> i in lost[..n + 1])
  {
    assert lost[..n + 1] == lost[..n] + [lost[n]];
  }

  lemma RepairedInTime(s: seq<Node>, order: seq<nat>, lost: seq<nat>, leaders: seq<Option<nat>>, n: nat, s': seq<Node>)
    requires n < |lost| && n < |leaders| && n + 1 < |order| && Lasting(s, order, lost, leaders, n)
    requires lost[n] < |s| && !s[lost[n]].failed && Answered(s, lost[n], leaders[n], s')
    ensures OnOneCycle(s') <==> InTime(order, lost, leaders, n)
    ensures InTime(order, lost, leaders, n) ==> Healthy(s', Remaining(order, lost, n + 1))
    ensures |Remaining(order, lost, n + 1)| + n + 1 == |order|
  {
    var rest := Remaining(order, lost, n);
    MendedIffInTime(s, order, lost, leaders, n);
    RepairIff(s, rest, PlaceOf(rest, lost[n]), leaders[n], s');
  }

  /** One more loss: the ring lasts if and only if it is in time. */
  lemma LastingStep(s: seq<Node>, order: seq<nat>, lost: seq<nat>, leaders: seq<Option<nat>>, n: nat, s': seq<Node>)
    requires n < |lost| && n < |leaders| && n + 1 < |order| && Lasting(s, order, lost, leaders, n)
    requires lost[n] < |s| && !s[lost[n]].failed && Answered(s, lost[n], leaders[n], s')
    ensures OnOneCycle(s') <==> InTime(order, lost, leaders, n)
    ensures InTime(order, lost, leaders, n) ==> Lasting(s', order, lost, leaders, n + 1)
  {
    RepairedInTime(s, order, lost, leaders, n, s');
    AnswerPreserves(s, lost[n], leaders[n], s');
    RecordsKept(s, order, lost, leaders, n, s');
    FailuresKept(s, lost, n, leaders[n], s');
  }

  ghost predicate Starts(s: seq<Node>, order: seq<nat>) { Healthy(s, order) && NoneFailedBefore(s, |s|) }

  /** However many servers are lost one after the other, each in time: the survivors are on one cycle. */
  lemma {:induction false} RingSurvives(states: seq<seq<Node>>, lost: seq<nat>, leaders: seq<Option<nat>>,
                                        order: seq<nat>, n: nat)
    requires n < |states| && n < |order| && Starts(states[0], order) && n <= |lost| && n <= |leaders|
    requires forall i {:trigger Loses(states, lost, leaders, i)} :: 0 <= i < n ==> Loses(states, lost, leaders, i)
    requires forall i :: 0 <= i < n ==> InTime(order, lost, leaders, i)
    ensures Lasting(states[n], order, lost, leaders, n)
  {
    if n > 0 {
      RingSurvives(states, lost, leaders, order, n - 1);
      assert Loses(states, lost, leaders, n - 1);
      LastingStep(states[n - 1], order, lost, leaders, n - 1, states[n]);
    }
  }

  /** Over every sequence of losses from a healthy ring, at least one server surviving: the survivors are on one cycle
      all along if and only if every loss is in time. */
  lemma RingSurvivesIff(states: seq<seq<Node>>, lost: seq<nat>, leaders: seq<Option<nat>>, order: seq<nat>, n: nat)
    requires n < |states| && n < |order| && Starts(states[0], order) && n <= |lost| && n <= |leaders|
    requires forall i {:trigger Loses(states, lost, leaders, i)} :: 0 <= i < n ==> Loses(states, lost, leaders, i)
    ensures (forall m :: 0 <= m <= n ==> OnOneCycle(states[m]))
            <==> forall i :: 0 <= i < n ==> InTime(order, lost, leaders, i)
  {
    var m := 0;
    assert IsRing(states[0], order);
    while m < n && InTime(order, lost, leaders, m)
      invariant 0 <= m <= n
      invariant forall i :: 0 <= i < m ==> InTime(order, lost, leaders, i)
      invariant forall i :: 0 <= i <= m ==> OnOneCycle(states[i])
    {
      m := m + 1;
      RingSurvives(states, lost, leaders, order, m);
      assert IsRing(states[m], Remaining(order, lost, m));
    }
    if m < n {
      RingSurvives(states, lost, leaders, order, m);
      assert Loses(states, lost, leaders, m);
      LastingStep(states[m], order, lost, leaders, m, states[m + 1]);
      assert !OnOneCycle(states[m + 1]);
    }
  }

  /** Names, addresses and ids are unchanged, and a channel is as before, gone, or new and not yet connected. */
  ghost predicate Rewired(s: seq<Node>, s': seq<Node>) {
    |s'| == |s| && forall i :: 0 <= i < |s| ==>
      && s'[i].id == s[i].id && s'[i].host == s[i].host && s'[i].port == s[i].port && s'[i].ip == s[i].ip
      && (s'[i].channel == s[i].channel || s'[i].channel.None? || !s'[i].channel.value.running)
  }

  lemma RewiredRefreshes(s: seq<Node>, s': seq<Node>)
    requires WellFormed(s) && DistinctUrls(s) && Rewired(s, s')
    ensures WellFormed(s') && DistinctUrls(s') && Refreshed(s', s')
  {
    forall i, j | 0 <= i < |s| && 0 <= j < |s|
      ensures SameId(s'[i], s'[j]) == SameId(s[i], s[j]) && SameAddress(s'[i], s'[j]) == SameAddress(s[i], s[j])
      ensures Answers(s'[i], Url(s'[j])) == Answers(s[i], Url(s[j]))
    {
    }
    forall i, j | 0 <= i < |s| && 0 <= j < |s| && s'[i].channel.Some? && s'[i].channel.value.running
      ensures Reports(s'[i], s'[j]) <==> PointsAt(s'[i].channel, s'[j])
    {
      assert Reports(s[i], s[j]) <==> PointsAt(s[i].channel, s[j]);
    }
  }

  lemma ClosingExists(s: seq<Node>, d: nat) returns (s': seq<Node>)
    requires d < |s|
    ensures Closed(s, d, s') && Rewired(s, s')
  {
    var i, j := 0, 0;
    while i < |s| && !Replicates(s[i], s[d])
      invariant i <= |s| && forall k :: 0 <= k < i ==> !Replicates(s[k], s[d])
    {
      i := i + 1;
    }
    var c := LastSeen(s[d]);
    while j < |s| && c.Some? && !Answers(s[j], c.value.host + ":" + c.value.port)
      invariant j <= |s| && (c.Some? ==> forall k :: 0 <= k < j ==> !Answers(s[k], c.value.host + ":" + c.value.port))
    {
      j := j + 1;
    }
    var child: Option<nat> := if i < |s| then Some(i) else None;
    var parent: Option<nat> := if c.Some? && j < |s| then Some(j) else None;
    assert IsChild(s, d, child) && IsParent(s, d, parent);
    s' := Spliced(s, child, parent);
  }

  /** Every loss on a healthy ring is answered somehow: runs of any length exist. */
  lemma LossIsAnswered(s: seq<Node>, d: nat, leader: Option<nat>) returns (s': seq<Node>)
    requires WellFormed(s) && DistinctUrls(s) && d < |s|
    ensures Answered(s, d, leader, s') && WellFormed(s') && DistinctUrls(s')
  {
    var s1 := Lose(s, d, leader);
    RewiredRefreshes(s, s1);
    if Pick(s1).Some? {
      s' := ClosingExists(s1, Pick(s1).value);
    } else {
      s' := s1;
    }
    RewiredRefreshes(s1, s');
    assert Refreshed(s1, s1) && Repairs(s1, s') && Refreshed(s', s');
  }

  // ---- Rings as they are bootstrapped ----

  /** Where nobody has failed, only the loss of a leader whose child is not the first survivor is not mended. */
  lemma FirstMended(s: seq<Node>, d: nat, leader: Option<nat>)
    requires 2 <= |s| && d < |s| && NoneFailedBefore(s, |s|)
    ensures Mended(s, Range(|s|), d, leader) <==> leader != Some(d) || d == 0 || d == |s| - 1
  {
    var c := Range(|s|)[Next(d, |s|)];
    if leader == Some(d) && 0 < d < |s| - 1 {
      assert !s[0].failed && 0 < c;
    }
  }

  /** The virtual leader of a bootstrapped ring is lost: the ring is closed again if and only if it was the first or
      the last server of the list; any other leader's loss goes unnoticed. */
  lemma BootstrapLeaderLost(s: seq<Node>, d: nat, s1: seq<Node>)
    requires Ready(s) && 2 <= |s| && d < |s| && Answered(Bootstrapped(s), d, Some(d), s1)
    ensures OnOneCycle(s1) <==> d == 0 || d == |s| - 1
  {
    BootstrapIsHealthy(s);
    FirstMended(Bootstrapped(s), d, Some(d));
    RepairIff(Bootstrapped(s), Range(|s|), d, Some(d), s1);
  }

  /** A ring of which only server d is lost, whose channel stays on record if it led. */
  ghost predicate Gone(s: seq<Node>, d: nat, led: bool) {
    && d < |s| && 2 <= |s| && Healthy(s, Without(Range(|s|), d))
    && (forall i :: 0 <= i < |s| ==> (s[i].failed <==> i == d))
    && (led ==> PointsAt(s[d].channel, s[Prev(d, |s|)]))
  }

  /** The state after the first of two losses. */
  lemma FirstLoss(s: seq<Node>, d: nat, leader: Option<nat>, s1: seq<Node>)
    requires Ready(s) && 2 <= |s| && d < |s| && Answered(Bootstrapped(s), d, leader, s1)
    requires leader != Some(d) || d == 0
    ensures |s1| == |s| && OnOneCycle(s1) && Gone(s1, d, leader == Some(d))
  {
    var r, order := Bootstrapped(s), Range(|s|);
    BootstrapIsHealthy(s);
    FirstMended(r, d, leader);
    RepairIff(r, order, d, leader, s1);
    AnswerPreserves(r, d, leader, s1);
    if leader == Some(d) {
      assert Linked(r, order, d);
    }
  }

  /** Losing the second server is repaired. Losing the third after it is not, because the repair is made around the
      second again; unless the third is the leader and only the first is left. */
  lemma LostInListOrder(s: seq<Node>, s1: seq<Node>, leader: Option<nat>, s2: seq<Node>)
    requires Ready(s) && 3 <= |s|
    requires Answered(Bootstrapped(s), 1, Some(0), s1) && |s1| == |s| && Answered(s1, 2, leader, s2)
    ensures OnOneCycle(s1)
    ensures OnOneCycle(s2) <==> |s| == 3 && leader == Some(2)
  {
    FirstLoss(s, 1, Some(0), s1);
    AnsweredNone(s, s1);
    ThirdMended(s1, leader);
    RepairIff(s1, Without(Range(|s1|), 1), 1, leader, s2);
  }

  lemma AnsweredNone(s: seq<Node>, s1: seq<Node>)
    requires Ready(s) && 3 <= |s| && Answered(Bootstrapped(s), 1, Some(0), s1)
    ensures |s1| == |s| && s1[1].channel.None?
  {
    AnswerPreserves(Bootstrapped(s), 1, Some(0), s1);
  }

  lemma ThirdMended(s: seq<Node>, leader: Option<nat>)
    requires 3 <= |s| && (forall i :: 0 <= i < |s| ==> (s[i].failed <==> i == 1)) && s[1].channel.None?
    ensures Mended(s, Without(Range(|s|), 1), 1, leader) <==> |s| == 3 && leader == Some(2)
  {
    var order := Without(Range(|s|), 1);
    assert order[0] == 0 && order[1] == 2 && (|s| > 3 ==> order[2] == 3);
    assert s[1].failed && !s[0].failed;
  }

  /** The first server is the leader and is lost, and then the last one, which has become the leader: the first loss
      is repaired, the second is not, because the first server, with its channel to the last one on record, is
      mistaken for the child. */
  lemma LostLeaderShadowsTheChild(s: seq<Node>, last: nat, s1: seq<Node>, s2: seq<Node>)
    requires Ready(s) && 3 <= |s| == last + 1 && |s1| == |s|
    requires Answered(Bootstrapped(s), 0, Some(0), s1) && Answered(s1, last, Some(last), s2)
    ensures OnOneCycle(s1) && !OnOneCycle(s2)
  {
    FirstLoss(s, 0, Some(0), s1);
    LastNotRepaired(s1, last, s2);
  }

  lemma LastNotRepaired(s: seq<Node>, last: nat, s': seq<Node>)
    requires 3 <= |s| == last + 1 && Gone(s, 0, true) && Answered(s, last, Some(last), s')
    ensures !OnOneCycle(s')
  {
    LastNotMended(s);
    RepairIff(s, Without(Range(|s|), 0), last - 1, Some(last), s');
  }

  lemma LastNotMended(s: seq<Node>)
    requires 3 <= |s| && s[0].failed && PointsAt(s[0].channel, s[|s| - 1])
    ensures var order := Without(Range(|s|), 0);
            order[|s| - 2] == |s| - 1 && !Mended(s, order, |s| - 2, Some(|s| - 1))
  {
    var order := Without(Range(|s|), 0);
    assert order[Next(|s| - 2, |order|)] == 1;
    assert !Clear(s, order, |s| - 2);
  }
}
