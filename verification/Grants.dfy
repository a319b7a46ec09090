/** API user grants: what four layers of allow and discard lists add up to. */
module Grants {
  import opened Prelude

  /** The grants on offer: a key to match against, and the grant it stands for. */
  type Offer = map<string, string>

  predicate Matches(acls: seq<string>, key: string) { exists i :: 0 <= i < |acls| && acls[i] != "" && acls[i] <= key }

  /** Some key of the grant, among the given ones, starts with an entry of the list. */
  ghost predicate Matched(offer: Offer, keys: set<string>, acls: seq<string>, grant: string) {
    exists k :: k in keys && k in offer && offer[k] == grant && Matches(acls, k)
  }

  ghost predicate Offered(offer: Offer, keys: set<string>, grant: string) {
    exists k :: k in keys && k in offer && offer[k] == grant
  }

  /** Old grants or matches: every offered grant is listed, and is held if it was or if it is matched. */
  ghost predicate Merged(before: map<string, bool>, offer: Offer, keys: set<string>, acls: seq<string>,
                         after: map<string, bool>)
  {
    && (forall g :: g in after <==> g in before || Offered(offer, keys, g))
    && (forall g :: g in after ==> (after[g] <==> (g in before && before[g]) || Matched(offer, keys, acls, g)))
  }

  predicate Has(m: map<string, bool>, g: string) { g in m && m[g] }

  method AnyPrefix(acls: seq<string>, key: string) returns (found: bool)
    ensures found == Matches(acls, key)
  {
    found := false;
    for i := 0 to |acls|
      invariant !found && forall j :: 0 <= j < i ==> acls[j] == "" || !(acls[j] <= key)
    {
      if acls[i] <= key && acls[i] != "" {
        return true;
      }
    }
  }

  lemma MergedStep(before: map<string, bool>, offer: Offer, keys: set<string>, acls: seq<string>,
                   mid: map<string, bool>, key: string, after: map<string, bool>)
    requires Merged(before, offer, keys, acls, mid) && key in offer && key !in keys
    requires after == if offer[key] !in mid || Matches(acls, key) then mid[offer[key] := Matches(acls, key)] else mid
    ensures Merged(before, offer, keys + {key}, acls, after)
  {
    var value := offer[key];
    forall g ensures Offered(offer, keys + {key}, g) <==> Offered(offer, keys, g) || g == value {
      if Offered(offer, keys, g) {
        var k :| k in keys && k in offer && offer[k] == g;
        assert k in keys + {key};
      }
      if g == value {
        assert key in keys + {key};
      }
    }
    forall g
      ensures Matched(offer, keys + {key}, acls, g)
              <==> Matched(offer, keys, acls, g) || (g == value && Matches(acls, key))
    {
      if Matched(offer, keys, acls, g) {
        var k :| k in keys && k in offer && offer[k] == g && Matches(acls, k);
        assert k in keys + {key};
      }
      if g == value && Matches(acls, key) {
        assert key in keys + {key};
      }
    }
    if value !in mid {
      assert !Offered(offer, keys, value) && value !in before;
    }
  }

  class ApiUser {
    const user: string
    var grants: map<string, bool>

    constructor (user: string)
      ensures this.user == user && grants == map[]
    {
      this.user, grants := user, map[];
    }

    /** SetUserGrants: the offer is visited in an arbitrary order. */
    method SetUserGrants(offer: Offer, grant: string)
      modifies this
      ensures Merged(old(grants), offer, offer.Keys, Split(grant, ' '), grants)
    {
      var acls := Split(grant, ' ');
      var todo := offer.Keys;
      while todo != {}
        invariant todo <= offer.Keys
        invariant Merged(old(grants), offer, offer.Keys - todo, acls, grants)
        decreases todo
      {
        var key :| key in todo;
        var value := offer[key];
        var found := AnyPrefix(acls, key);
        ghost var mid, done := grants, offer.Keys - todo;
        if value !in grants || found {
          grants := grants[value := found];
        }
        todo := todo - {key};
        MergedStep(old(grants), offer, done, acls, mid, key, grants);
        assert offer.Keys - todo == done + {key};
      }
      assert offer.Keys - todo == offer.Keys;
    }

    /** Every entry of a discard list is switched off, by its exact name. */
    method Discard(discard: string)
      modifies this
      ensures forall g :: Has(grants, g) <==> Has(old(grants), g) && g !in Split(discard, ' ')
    {
      var acls := Split(discard, ' ');
      for i := 0 to |acls|
        invariant forall g :: Has(grants, g) <==> Has(old(grants), g) && g !in acls[..i]
      {
        assert acls[..i + 1] == acls[..i] + [acls[i]];
        grants := grants[acls[i] := false];
      }
      assert acls[..|acls|] == acls;
    }

    /** The layers of LoadAPIUsers for one user: allow, discard, external allow, external discard. */
    method Load(offer: Offer, allow: Option<string>, discard: Option<string>, allowExt: Option<string>,
                discardExt: Option<string>)
      requires grants == map[]
      modifies this
      ensures forall g :: Has(grants, g) <==> Granted(offer, allow, discard, allowExt, discardExt, g)
    {
      if allow.Some? {
        SetUserGrants(offer, allow.value);
      }
      assert forall g :: Has(grants, g) <==> AllowedBy(offer, allow, g);
      if discard.Some? {
        Discard(discard.value);
      }
      assert forall g :: Has(grants, g) <==> AllowedBy(offer, allow, g) && !DiscardedBy(discard, g);
      ghost var mid := grants;
      if allowExt.Some? {
        SetUserGrants(offer, allowExt.value);
      }
      assert forall g :: Has(grants, g) <==> Has(mid, g) || AllowedBy(offer, allowExt, g);
      if discardExt.Some? {
        Discard(discardExt.value);
      }
    }
  }

  ghost predicate AllowedBy(offer: Offer, allow: Option<string>, grant: string) {
    allow.Some? && Matched(offer, offer.Keys, Split(allow.value, ' '), grant)
  }

  predicate DiscardedBy(discard: Option<string>, grant: string) {
    discard.Some? && grant in Split(discard.value, ' ')
  }

  /** Not in the external discards, and matched by the external allows, or by the allows and not in the discards. */
  ghost predicate Granted(offer: Offer, allow: Option<string>, discard: Option<string>, allowExt: Option<string>,
                          discardExt: Option<string>, grant: string)
  {
    && !DiscardedBy(discardExt, grant)
    && (AllowedBy(offer, allowExt, grant) || (AllowedBy(offer, allow, grant) && !DiscardedBy(discard, grant)))
  }

  /** The access lists of one layer, by user name. */
  type Layer = map<string, string>

  function Entry(layer: Layer, user: string): Option<string> { if user in layer then Some(layer[user]) else None }

  ghost predicate GrantedTo(offer: Offer, allow: Layer, discard: Layer, allowExt: Layer, discardExt: Layer,
                            user: string, grant: string)
  {
    Granted(offer, Entry(allow, user), Entry(discard, user), Entry(allowExt, user), Entry(discardExt, user), grant)
  }

  function UserOf(credential: string): string { Split(credential, ':')[0] }

  /** A credential is the user's name and, after a colon, anything. */
  lemma UserBeforeColon(user: string, rest: string)
    requires ':' !in user
    ensures UserOf(user + ":" + rest) == user && UserOf(user) == user
  {
    SplitAt(user, ':', rest);
    SplitWhole(user, ':');
  }

  ghost predicate Named(credentials: seq<string>, user: string) {
    exists i :: 0 <= i < |credentials| && credentials[i] != "" && UserOf(credentials[i]) == user
  }

  /** LoadAPIUsers: one user per name in the comma-separated credentials, each with exactly the grants of its layers.
      */
  method LoadAPIUsers(credentials: string, offer: Offer, allow: Layer, discard: Layer, allowExt: Layer,
                      discardExt: Layer)
    returns (users: map<string, map<string, bool>>)
    ensures forall u :: u in users <==> Named(Split(credentials, ','), u)
    ensures forall u, g :: u in users ==>
              (Has(users[u], g) <==> GrantedTo(offer, allow, discard, allowExt, discardExt, u, g))
  {
    users := map[];
    var list := Split(credentials, ',');
    for i := 0 to |list|
      invariant forall u :: u in users <==> Named(list[..i], u)
      invariant forall u, g :: u in users ==>
                  (Has(users[u], g) <==> GrantedTo(offer, allow, discard, allowExt, discardExt, u, g))
    {
      NamedStep(list, i);
      if list[i] == "" {
        continue;
      }
      var name := UserOf(list[i]);
      if name in users {
        continue;
      }
      var u := new ApiUser(name);
      u.Load(offer, Entry(allow, name), Entry(discard, name), Entry(allowExt, name), Entry(discardExt, name));
      users := users[name := u.grants];
    }
    assert list[..|list|] == list;
  }

  lemma NamedStep(list: seq<string>, i: nat)
    requires i < |list|
    ensures forall u :: Named(list[..i + 1], u) <==> Named(list[..i], u) || (list[i] != "" && UserOf(list[i]) == u)
  {
    var longer := list[..i + 1];
    forall u ensures Named(longer, u) <==> Named(list[..i], u) || (list[i] != "" && UserOf(list[i]) == u) {
      if Named(list[..i], u) {
        var k :| 0 <= k < i && list[..i][k] != "" && UserOf(list[..i][k]) == u;
        assert longer[k] == list[k];
      }
      if list[i] != "" && UserOf(list[i]) == u {
        assert longer[i] == list[i];
      }
      if Named(longer, u) {
        var k :| 0 <= k < |longer| && longer[k] != "" && UserOf(longer[k]) == u;
        if k < i {
          assert list[..i][k] == list[k];
        }
      }
    }
  }
}
