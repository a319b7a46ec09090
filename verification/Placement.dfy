/** Which agent provisions which server. */
module Placement {
  import opened Prelude

  ghost predicate IsFirst(ids: seq<string>, id: string, i: nat) {
    i < |ids| && ids[i] == id && forall j :: 0 <= j < i ==> ids[j] != id
  }

  /** The agent of server number i. */
  function AgentAt(agents: string, i: nat): string { Split(agents, ',')[i % |Split(agents, ',')|] }

  /** GetDatabaseAgent: the name looked up for the first server with the id; splitting always leaves a name, so the
      case of an empty agent list cannot occur. */
  method GetDatabaseAgent(ids: seq<string>, id: string, agents: string) returns (agent: Option<string>)
    ensures agent.None? <==> id !in ids
    ensures forall i :: IsFirst(ids, id, i) ==> agent == Some(AgentAt(agents, i))
  {
    var names := Split(agents, ',');
    for i := 0 to |ids|
      invariant id !in ids[..i]
    {
      if ids[i] == id {
        assert forall j :: 0 <= j < i ==> ids[j] == ids[..i][j];
        return Some(names[i % |names|]);
      }
      assert ids[..i + 1] == ids[..i] + [ids[i]];
    }
    assert ids[..|ids|] == ids;
    return None;
  }

  /** Servers are dealt to the agents in the order of their list, round after round. */
  lemma DealtInOrder(agents: string, i: nat)
    ensures var names := Split(agents, ',');
            && (i < |names| ==> AgentAt(agents, i) == names[i]) && AgentAt(agents, i + |names|) == AgentAt(agents, i)
  {
    NextRound(i, |Split(agents, ',')|);
  }

  lemma NextRound(i: nat, k: nat)
    requires k > 0
    ensures (i + k) % k == i % k && (i < k ==> i % k == i)
  {
    var q, r := i / k, i % k;
    assert i == k * q + r;
    OneMore(k, q);
    Multiple(q + 1, k, r);
    if i < k {
      Multiple(0, k, i);
    }
  }

  lemma OneMore(k: nat, q: nat)
    ensures k * (q + 1) == k * q + k
  {
  }

  /** How many of the first n servers an agent gets. */
  function Load(agents: string, n: nat, agent: string): nat {
    if n == 0 then 0 else Load(agents, n - 1, agent) + if AgentAt(agents, n - 1) == agent then 1 else 0
  }

  lemma NextModulo(n: nat, k: nat)
    requires k > 0
    ensures (n + 1) % k == if n % k == k - 1 then 0 else n % k + 1
  {
    var q, r := n / k, n % k;
    assert n == k * q + r;
    if r == k - 1 {
      assert n + 1 == k * (q + 1);
      Multiple(q + 1, k, 0);
    } else {
      Multiple(q, k, r + 1);
    }
  }

  lemma {:induction false} Multiple(q: nat, k: nat, r: nat)
    requires r < k
    ensures (k * q + r) % k == r
  {
    var x := k * q + r;
    var d := x / k;
    assert x == k * d + x % k;
    if d < q {
      Apart(k, d, q);
    } else if q < d {
      Apart(k, q, d);
    }
  }

  lemma {:induction false} Apart(k: nat, a: nat, b: nat)
    requires a < b
    ensures k * a + k <= k * b
  {
    assert k * b == k * (b - 1) + k;
    if a + 1 < b {
      Apart(k, a, b - 1);
    }
  }

  /** Whose turn it is after n servers, counted round by round. */
  function Turn(n: nat, k: nat): (t: nat)
    requires k > 0
    ensures t < k
  {
    if n == 0 then 0 else if Turn(n - 1, k) == k - 1 then 0 else Turn(n - 1, k) + 1
  }

  lemma {:induction false} TurnIsModulo(n: nat, k: nat)
    requires k > 0
    ensures Turn(n, k) == n % k
  {
    if n > 0 {
      TurnIsModulo(n - 1, k);
      NextModulo(n - 1, k);
    }
  }

  /** Servers dealt so far beyond whole rounds: one more for each agent before the next in turn. */
  function Extra(a: nat, n: nat, k: nat): nat
    requires k > 0
  {
    if a < Turn(n, k) then 1 else 0
  }

  /** How many of the first n turns are those of number a. */
  function Dealt(n: nat, k: nat, a: nat): nat
    requires k > 0
  {
    if n == 0 then 0 else Dealt(n - 1, k, a) + if Turn(n - 1, k) == a then 1 else 0
  }

  lemma {:induction false} DealtDifference(n: nat, k: nat, a: nat, b: nat)
    requires a < k && b < k
    ensures Dealt(n, k, a) - Extra(a, n, k) == Dealt(n, k, b) - Extra(b, n, k)
  {
    if n > 0 {
      DealtDifference(n - 1, k, a, b);
    }
  }

  lemma {:induction false} LoadIsDealt(agents: string, n: nat, a: nat)
    requires Distinct(Split(agents, ',')) && a < |Split(agents, ',')|
    ensures Load(agents, n, Split(agents, ',')[a]) == Dealt(n, |Split(agents, ',')|, a)
  {
    if n > 0 {
      LoadIsDealt(agents, n - 1, a);
      TurnIsModulo(n - 1, |Split(agents, ',')|);
    }
  }

  /** With distinct agent names, any number of servers is spread so that no agent has two more than another. */
  lemma Balanced(agents: string, n: nat, x: string, y: string)
    requires Distinct(Split(agents, ',')) && x in Split(agents, ',') && y in Split(agents, ',')
    ensures Load(agents, n, x) <= Load(agents, n, y) + 1
  {
    var names := Split(agents, ',');
    var a :| 0 <= a < |names| && names[a] == x;
    var b :| 0 <= b < |names| && names[b] == y;
    LoadIsDealt(agents, n, a);
    LoadIsDealt(agents, n, b);
    DealtDifference(n, |names|, a, b);
  }
}
