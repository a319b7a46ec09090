/** The pool of ports on which the monitor receives files from its servers. */
module SenderPorts {
  import opened Prelude

  /** Free ports, the port of each live receiver, and the ports handed out to a bind that failed. */
  datatype Pool = Pool(available: set<string>, held: map<nat, string>, lost: set<string>)

  /** What binding comes to: an error, or success, on a free port of the system's choice when asked for port "0". */
  datatype Bind = Fails | Binds(free: string)

  datatype Event = Open(receiver: nat, pick: string, bind: Bind) | Close(receiver: nat)

  const ANY: string := "0"

  function Live(p: Pool): set<string> { p.held.Values }

  /** Ports are configured and one is left. */
  predicate Hands(configured: string, p: Pool) { configured != "" && p.available != {} }

  function Handed(configured: string, p: Pool, pick: string): string { if Hands(configured, p) then pick else ANY }

  /** The port a successful opening ends up on. */
  function Bound(configured: string, p: Pool, pick: string, free: string): string {
    if Handed(configured, p, pick) == ANY then free else pick
  }

  /** The pool hands out one of its ports, the system never chooses a port that is bound, and only live receivers
      close. */
  predicate Legal(configured: string, p: Pool, e: Event) {
    match e
    case Open(r, pick, bind) =>
      && r !in p.held && (Hands(configured, p) ==> pick in p.available)
      && (bind.Binds? && Handed(configured, p, pick) == ANY ==> bind.free != ANY && bind.free !in Live(p))
    case Close(r) => r in p.held
  }

  function Step(configured: string, p: Pool, e: Event): Pool
    requires Legal(configured, p, e)
  {
    match e
    case Open(r, pick, bind) =>
      var left := if Hands(configured, p) then p.available - {pick} else p.available;
      if bind.Fails? then Pool(left, p.held, if Hands(configured, p) then p.lost + {pick} else p.lost)
      else
        var bound := Bound(configured, p, pick, bind.free);
        Pool(left, p.held[r := bound], p.lost - {bound})
    case Close(r) => Pool(p.available + {p.held[r]}, p.held - {r}, p.lost)
  }

  function Initial(configured: string): Pool { Pool(set x | x in Split(configured, ','), map[], {}) }

  /** The pool the monitor keeps; what is lost is recorded nowhere. */
  class PortPool {
    const configured: string
    var available: set<string>
    var held: map<nat, string>
    ghost var lost: set<string>

    ghost function View(): Pool
      reads this
    {
      Pool(available, held, lost)
    }

    constructor (configured: string)
      ensures this.configured == configured && View() == Initial(configured)
    {
      this.configured, held, lost := configured, map[], {};
      available := set x | x in Split(configured, ',');
    }

    /** SSTGetSenderPort: any port that is left, or "0". */
    method SSTGetSenderPort() returns (port: string)
      modifies this`available
      ensures if Hands(configured, old(View())) then port in old(available) && available == old(available) - {port}
              else port == ANY && available == old(available)
    {
      if configured != "" && available != {} {
        var k :| k in available;
        available := available - {k};
        return k;
      }
      return ANY;
    }

    /** A receiver opens; a bind that fails leaves the port where nobody finds it again. */
    method OpenReceiver(r: nat, bind: Bind) returns (ghost pick: string)
      requires r !in held && (bind.Binds? ==> bind.free != ANY && bind.free !in Live(View()))
      modifies this
      ensures Legal(configured, old(View()), Open(r, pick, bind))
      ensures View() == Step(configured, old(View()), Open(r, pick, bind))
    {
      ghost var hands := Hands(configured, View());
      var port := SSTGetSenderPort();
      pick := port;
      if bind.Fails? {
        lost := if hands then lost + {port} else lost;
      } else {
        var bound := if port == ANY then bind.free else port;
        held := held[r := bound];
        lost := lost - {bound};
      }
    }

    /** The clean-up of a receiver, with SSTSenderFreePort. */
    method CloseReceiver(r: nat)
      requires r in held
      modifies this
      ensures View() == Step(configured, old(View()), Close(r))
    {
      available := available + {held[r]};
      held := held - {r};
    }
  }

  // ---- Every run of openings and closings ----

  ghost predicate LegalRun(configured: string, es: seq<Event>)
    decreases |es|, 0
  {
    es == [] || (var before := es[..|es| - 1];
                 LegalRun(configured, before) && Legal(configured, Run(configured, before), es[|es| - 1]))
  }

  ghost function Run(configured: string, es: seq<Event>): Pool
    requires LegalRun(configured, es)
    decreases |es|, 1
  {
    if es == [] then Initial(configured) else Step(configured, Run(configured, es[..|es| - 1]), es[|es| - 1])
  }

  ghost predicate Injective(held: map<nat, string>) {
    forall r, s :: r in held && s in held && held[r] == held[s] ==> r == s
  }

  /** No port is in two places, and every configured one is in some place. */
  ghost predicate Sound(configured: string, p: Pool) {
    && Injective(p.held)
    && p.available !! Live(p) && p.lost !! p.available && p.lost !! Live(p)
    && ANY !in p.available && ANY !in Live(p)
    && forall x :: x in Split(configured, ',') ==> x in p.available || x in Live(p) || x in p.lost
  }

  lemma OpenSound(configured: string, p: Pool, r: nat, pick: string, bind: Bind)
    requires configured != "" && Sound(configured, p) && Legal(configured, p, Open(r, pick, bind))
    ensures Sound(configured, Step(configured, p, Open(r, pick, bind)))
  {
    var q := Step(configured, p, Open(r, pick, bind));
    if bind.Binds? {
      var bound := Bound(configured, p, pick, bind.free);
      assert Live(q) == Live(p) + {bound} by {
        assert forall s :: s in p.held ==> q.held[s] == p.held[s];
        assert q.held[r] == bound;
      }
      assert forall s :: s in p.held ==> p.held[s] in Live(p);
    }
  }

  lemma CloseSound(configured: string, p: Pool, r: nat)
    requires Sound(configured, p) && r in p.held
    ensures Sound(configured, Step(configured, p, Close(r)))
  {
    var q := Step(configured, p, Close(r));
    assert p.held[r] in Live(p);
    assert Live(q) == Live(p) - {p.held[r]} by {
      forall x | x in Live(p) && x != p.held[r] ensures x in Live(q) {
        var s :| s in p.held && p.held[s] == x;
        assert q.held[s] == x;
      }
      forall s | s in q.held ensures q.held[s] != p.held[r] {
        assert q.held[s] == p.held[s];
      }
    }
  }

  /** With ports configured, over every run of openings and closings, binds that fail included: free, live and lost
      ports are apart, no port has two receivers, and every configured port is one of the three. */
  lemma {:induction false} PortsConserved(configured: string, es: seq<Event>)
    requires configured != "" && ANY !in Split(configured, ',') && LegalRun(configured, es)
    ensures Sound(configured, Run(configured, es))
  {
    if es != [] {
      var before, e := es[..|es| - 1], es[|es| - 1];
      PortsConserved(configured, before);
      var p := Run(configured, before);
      match e
      case Open(r, pick, bind) => OpenSound(configured, p, r, pick, bind);
      case Close(r) => CloseSound(configured, p, r);
    }
  }

  /** Event number i is a failed bind of port x, handed out of the pool. */
  ghost predicate FailsOn(configured: string, es: seq<Event>, i: nat, x: string)
    requires i < |es|
  {
    && es[i].Open? && es[i].bind.Fails? && es[i].pick == x
    && LegalRun(configured, es[..i]) && Hands(configured, Run(configured, es[..i]))
  }

  /** Event number i is a successful bind that ends up on port x. */
  ghost predicate BindsOn(configured: string, es: seq<Event>, i: nat, x: string)
    requires i < |es|
  {
    && es[i].Open? && es[i].bind.Binds?
    && LegalRun(configured, es[..i]) && Bound(configured, Run(configured, es[..i]), es[i].pick, es[i].bind.free) == x
  }

  /** A bind of x failed at event number i and none has succeeded since. */
  ghost predicate LostAt(configured: string, es: seq<Event>, i: nat, x: string)
    requires i < |es|
  {
    FailsOn(configured, es, i, x) && forall j :: i < j < |es| ==> !BindsOn(configured, es, j, x)
  }

  lemma PrefixEvents(configured: string, es: seq<Event>, i: nat, x: string)
    requires i + 1 < |es|
    ensures FailsOn(configured, es[..|es| - 1], i, x) <==> FailsOn(configured, es, i, x)
    ensures BindsOn(configured, es[..|es| - 1], i, x) <==> BindsOn(configured, es, i, x)
  {
    assert es[..|es| - 1][..i] == es[..i];
  }

  /** After one more event: x was lost now, or was lost before and is not bound now. */
  lemma LostAtStep(configured: string, es: seq<Event>, x: string)
    requires es != []
    ensures var n := |es| - 1;
            (exists i :: 0 <= i < |es| && LostAt(configured, es, i, x))
            <==> || FailsOn(configured, es, n, x)
                 || ((exists i :: 0 <= i < n && LostAt(configured, es[..n], i, x)) && !BindsOn(configured, es, n, x))
  {
    var n := |es| - 1;
    forall i | 0 <= i < n
      ensures FailsOn(configured, es[..n], i, x) <==> FailsOn(configured, es, i, x)
      ensures BindsOn(configured, es[..n], i, x) <==> BindsOn(configured, es, i, x)
    {
      PrefixEvents(configured, es, i, x);
    }
    if FailsOn(configured, es, n, x) {
      assert LostAt(configured, es, n, x);
    }
    if i :| 0 <= i < n && LostAt(configured, es[..n], i, x) && !BindsOn(configured, es, n, x) {
      assert LostAt(configured, es, i, x);
    }
    if i :| 0 <= i < n && LostAt(configured, es, i, x) {
      assert LostAt(configured, es[..n], i, x);
    }
  }

  lemma {:induction false} LostIff(configured: string, es: seq<Event>, x: string)
    requires LegalRun(configured, es)
    ensures x in Run(configured, es).lost <==> exists i :: 0 <= i < |es| && LostAt(configured, es, i, x)
  {
    if es != [] {
      LostIff(configured, es[..|es| - 1], x);
      LostAtStep(configured, es, x);
    }
  }

  /** A configured port is neither free nor live after a run if and only if some bind of it failed and none has
      succeeded since. */
  lemma PortMissingIff(configured: string, es: seq<Event>, x: string)
    requires configured != "" && ANY !in Split(configured, ',') && LegalRun(configured, es)
    requires x in Split(configured, ',')
    ensures var p := Run(configured, es);
            x !in p.available && x !in Live(p) <==> exists i :: 0 <= i < |es| && LostAt(configured, es, i, x)
  {
    PortsConserved(configured, es);
    LostIff(configured, es, x);
  }

  /** A failed bind takes the port it was handed out of the pool without giving it to anybody. */
  lemma FailedBindLosesThePort(configured: string, es: seq<Event>, r: nat, pick: string)
    requires configured != "" && ANY !in Split(configured, ',') && LegalRun(configured, es)
    requires Run(configured, es).available != {} && Legal(configured, Run(configured, es), Open(r, pick, Fails))
    ensures var q := Step(configured, Run(configured, es), Open(r, pick, Fails));
            pick !in q.available && pick !in Live(q)
    ensures Handed(configured, Run(configured, es), pick) != ANY
  {
    PortsConserved(configured, es);
  }
}
