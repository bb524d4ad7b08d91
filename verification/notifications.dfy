/**
 * The center registry and the authentication gate in front of it.
 * A center is addressed by mail + "____" + center; the service keeps its last
 * message in `lastState` and its hub in `hubs`, and pending hard-TTL expiry
 * goroutines in `timers`. The goroutines of the source (hub loops, the
 * broadcast hand-off, the expiry sleep) are sequential steps here.
 */
module Notifications {
  import opened Keys
  import opened Http
  import opened WebSocketHub

  const Delimiter := "____"

  /** Prefix of the Authorization header, before the hex signature. */
  const AuthName := "GoPush "

  /* ---------------------------------------------------------------- */
  /* Center names                                                     */
  /* ---------------------------------------------------------------- */

  /** getCenterName: the id splits back into mail, delimiter and center. */
  function CenterName(mail: string, center: string): (id: string)
    ensures |id| == |mail| + |Delimiter| + |center|
    ensures id[..|mail|] == mail
    ensures id[|mail|..|mail| + |Delimiter|] == Delimiter
    ensures id[|mail| + |Delimiter|..] == center
  {
    mail + Delimiter + center
  }

  /** s holds the delimiter at position i. */
  predicate DelimiterAt(s: string, i: int)
  {
    0 <= i <= |s| - |Delimiter| && s[i..i + |Delimiter|] == Delimiter
  }

  predicate ContainsDelimiter(s: string)
  {
    exists i | 0 <= i <= |s| :: DelimiterAt(s, i)
  }

  predicate EndsWithUnderscore(s: string)
  {
    |s| > 0 && s[|s| - 1] == '_'
  }

  /** One mail's centers never share an id. */
  lemma CenterNameInjectiveForMail(mail: string, c1: string, c2: string)
    requires CenterName(mail, c1) == CenterName(mail, c2)
    ensures c1 == c2
  {
  }

  /**
   * Distinct identities get distinct ids, provided no mail contains the
   * delimiter or ends with '_'; CenterNameCollisions shows both conditions
   * are needed.
   */
  lemma {:induction false} CenterNameInjective(m1: string, c1: string, m2: string, c2: string)
    requires !ContainsDelimiter(m1) && !EndsWithUnderscore(m1)
    requires !ContainsDelimiter(m2) && !EndsWithUnderscore(m2)
    requires CenterName(m1, c1) == CenterName(m2, c2)
    ensures m1 == m2 && c1 == c2
  {
    if |m1| < |m2| {
      ShorterMailCollides(m1, c1, m2, c2);
    } else if |m2| < |m1| {
      ShorterMailCollides(m2, c2, m1, c1);
    } else {
      var id := CenterName(m1, c1);
      assert m1 == id[..|m1|] == m2;
      CenterNameInjectiveForMail(m1, c1, c2);
    }
  }

  /** A strictly shorter mail can share an id only with a mail that holds the delimiter or ends with '_'. */
  lemma ShorterMailCollides(m1: string, c1: string, m2: string, c2: string)
    requires |m1| < |m2|
    requires CenterName(m1, c1) == CenterName(m2, c2)
    ensures ContainsDelimiter(m2) || EndsWithUnderscore(m2)
  {
    var id := CenterName(m1, c1);
    var k := |m1|;
    if |m2| >= k + |Delimiter| {
      assert m2[k..k + |Delimiter|] == id[k..k + |Delimiter|] == Delimiter;
      assert DelimiterAt(m2, k);
    } else {
      assert m2[|m2| - 1] == id[|m2| - 1] == id[k..k + |Delimiter|][|m2| - 1 - k] == '_';
    }
  }

  /** Two identities whose centers share an id. */
  lemma CenterNameCollisions()
    ensures CenterName("alice@example.com", "x____inbox") == CenterName("alice@example.com____x", "inbox")
    ensures CenterName("alice@example.com", "_inbox") == CenterName("alice@example.com_", "inbox")
  {
  }

  /* ---------------------------------------------------------------- */
  /* Authentication                                                   */
  /* ---------------------------------------------------------------- */

  predicate HasPrefix(s: string, prefix: string)
  {
    |prefix| <= |s| && s[..|prefix|] == prefix
  }

  /** The answer of checkAuth as written, where the header slice can go out of range. */
  datatype AuthOutcome = Accepted | Rejected | Aborted

  /**
   * checkAuth as written: a non-empty Authorization header shorter than
   * "GoPush " makes authheader[0:len(svc.authName)] panic, which aborts the
   * request without a response.
   */
  function CheckAuthAsWritten(mail: string, authorization: string, body: string,
                              keyOf: string -> Option<PublicKey>, verify: Verifier): (r: AuthOutcome)
    ensures r == Aborted <==> mail != "" && 0 < |authorization| < |AuthName|
    ensures r == Accepted ==> HasPrefix(authorization, AuthName) && keyOf(mail).Some?
                              && verify(keyOf(mail).value, body, authorization[|AuthName|..])
  {
    if mail == "" then Rejected
    else if authorization == "" then Rejected
    else if |authorization| < |AuthName| then Aborted
    else if authorization[..|AuthName|] != AuthName then Rejected
    else match keyOf(mail)
      case None => Rejected
      case Some(key) => if verify(key, body, authorization[|AuthName|..]) then Accepted else Rejected
  }

  /**
   * checkAuth as intended: fails closed on a missing mail, a header without
   * the "GoPush " prefix (however short) and an unknown mail; otherwise it is
   * the signature check of the header's remainder over the body.
   */
  function CheckAuth(mail: string, authorization: string, body: string,
                     keyOf: string -> Option<PublicKey>, verify: Verifier): (ok: bool)
    ensures mail == "" ==> !ok
    ensures !HasPrefix(authorization, AuthName) ==> !ok
    ensures keyOf(mail) == None ==> !ok
    ensures ok ==> keyOf(mail).Some? && verify(keyOf(mail).value, body, authorization[|AuthName|..])
  {
    if mail == "" then false
    else if !HasPrefix(authorization, AuthName) then false
    else match keyOf(mail)
      case None => false
      case Some(key) => verify(key, body, authorization[|AuthName|..])
  }

  /** The request is signed: the header is "GoPush " + sig and sig verifies the body under mail's key. */
  ghost predicate SignedBy(mail: string, authorization: string, body: string,
                           keyOf: string -> Option<PublicKey>, verify: Verifier)
  {
    && mail != ""
    && keyOf(mail).Some?
    && exists sig :: authorization == AuthName + sig && verify(keyOf(mail).value, body, sig)
  }

  /** CheckAuth accepts exactly the signed requests. */
  lemma CheckAuthAcceptsSigned(mail: string, authorization: string, body: string,
                                keyOf: string -> Option<PublicKey>, verify: Verifier)
    ensures CheckAuth(mail, authorization, body, keyOf, verify) <==> SignedBy(mail, authorization, body, keyOf, verify)
  {
  }

  /** Where checkAuth as written answers at all, it answers as CheckAuth does. */
  lemma CheckAuthAsWrittenAgrees(mail: string, authorization: string, body: string,
                                 keyOf: string -> Option<PublicKey>, verify: Verifier)
    ensures CheckAuthAsWritten(mail, authorization, body, keyOf, verify) != Aborted ==>
              (CheckAuthAsWritten(mail, authorization, body, keyOf, verify) == Accepted
               <==> CheckAuth(mail, authorization, body, keyOf, verify))
  {
  }

  /** The header "GoPush" (the prefix without its space) aborts the request as written. */
  lemma ShortHeaderAborts(keyOf: string -> Option<PublicKey>, verify: Verifier)
    ensures CheckAuthAsWritten("test@example.com", "GoPush", "inbox", keyOf, verify) == Aborted
    ensures !CheckAuth("test@example.com", "GoPush", "inbox", keyOf, verify)
  {
  }

  /* ---------------------------------------------------------------- */
  /* The registry                                                     */
  /* ---------------------------------------------------------------- */

  /** A pending expiry goroutine, started by createCenter(mail, center). */
  datatype Timer = Timer(mail: string, center: string)

  class GoPushService {
    var lastState: map<string, string>
    var hubs: map<string, WSHub>
    var timers: multiset<Timer>
    /** config.Timeout, in seconds; expiry is scheduled only when positive. */
    const timeout: int

    ghost function Connections(): set<WSConnection>
      reads this, hubs.Values
    {
      set id, c | id in hubs && c in hubs[id].connections :: c
    }

    /** The objects a request against center id may touch: its hub and that hub's connections. */
    ghost function CenterFootprint(id: string): set<object>
      reads this, hubs.Values
    {
      if id in hubs then {hubs[id] as object} + (set c | c in hubs[id].connections :: c as object) else {}
    }

    /**
     * lastState and hubs have the same centers; each hub is live, owns its
     * connections alone, and keeps its own invariant; timers exist only
     * with a positive timeout.
     */
    ghost predicate Valid()
      reads this, hubs.Values, Connections()
    {
      && lastState.Keys == hubs.Keys
      && (forall id | id in hubs :: hubs[id].running && hubs[id].Valid())
      && (forall i, j | i in hubs && j in hubs && i != j ::
            hubs[i] != hubs[j] && hubs[i].connections !! hubs[j].connections)
      && (timeout <= 0 ==> timers == multiset{})
    }

    /** No center was created, changed or removed. */
    twostate predicate RegistryUnchanged()
      reads this
    {
      lastState == old(lastState) && hubs == old(hubs) && timers == old(timers)
    }

    constructor (timeout: int)
      ensures Valid() && lastState == map[] && hubs == map[] && timers == multiset{}
      ensures this.timeout == timeout
    {
      lastState := map[];
      hubs := map[];
      timers := multiset{};
      this.timeout := timeout;
    }

    /**
     * createCenter: the id gets an empty last message and a fresh running hub
     * with no connections, replacing whatever was there (the replaced hub is
     * left running with its subscribers); with a positive timeout an expiry
     * timer is started.
     */
    method CreateCenter(mail: string, center: string) returns (id: string)
      requires Valid()
      modifies this
      ensures Valid()
      ensures id == CenterName(mail, center)
      ensures lastState == old(lastState)[id := ""]
      ensures hubs.Keys == old(hubs).Keys + {id}
      ensures fresh(hubs[id]) && hubs[id].connections == {} && hubs[id].running
      ensures forall k | k in old(hubs) && k != id :: hubs[k] == old(hubs[k])
      ensures timers == if timeout > 0 then old(timers) + multiset{Timer(mail, center)} else old(timers)
    {
      id := CenterName(mail, center);
      lastState := lastState[id := ""];
      var h := new WSHub();
      hubs := hubs[id := h];
      if timeout > 0 {
        timers := timers + multiset{Timer(mail, center)};
      }
    }

    /**
     * removeCenter: the center leaves both maps and its hub gets quit(true),
     * which stops every connection it holds. Callers check that the center
     * exists; in the source a missing hub would be a nil dereference.
     */
    method RemoveCenter(mail: string, center: string)
      requires Valid() && CenterName(mail, center) in hubs
      modifies this, CenterFootprint(CenterName(mail, center))
      ensures Valid()
      ensures lastState == old(lastState) - {CenterName(mail, center)}
      ensures hubs == old(hubs) - {CenterName(mail, center)}
      ensures timers == old(timers)
      ensures Stopped(old(hubs[CenterName(mail, center)]), old(hubs[CenterName(mail, center)].connections))
    {
      var id := CenterName(mail, center);
      lastState := lastState - {id};
      var h := hubs[id];
      h.Quit(true);
      hubs := hubs - {id};
    }

    /**
     * The expiry goroutine wakes: it removes the center if `hubs` still holds
     * its id, whichever hub that now is, and does nothing otherwise.
     */
    method Expire(t: Timer)
      requires Valid() && t in timers
      modifies this, CenterFootprint(CenterName(t.mail, t.center))
      ensures Valid()
      ensures timers == old(timers) - multiset{t}
      ensures CenterName(t.mail, t.center) in old(hubs) ==>
                && lastState == old(lastState) - {CenterName(t.mail, t.center)}
                && hubs == old(hubs) - {CenterName(t.mail, t.center)}
                && Stopped(old(hubs[CenterName(t.mail, t.center)]), old(hubs[CenterName(t.mail, t.center)].connections))
      ensures CenterName(t.mail, t.center) !in old(hubs) ==> lastState == old(lastState) && hubs == old(hubs)
    {
      timers := timers - multiset{t};
      if CenterName(t.mail, t.center) in hubs {
        RemoveCenter(t.mail, t.center);
      }
    }

    /** handleNewCenter: the body is the new center's name; 201 carries the id. */
    method HandleNewCenter(r: Request, keyOf: string -> Option<PublicKey>, verify: Verifier)
      returns (resp: Response)
      requires Valid()
      modifies this
      ensures Valid()
      ensures r.verb != "POST" ==> resp == NotFound() && RegistryUnchanged()
      ensures r.verb == "POST" && !CheckAuth(r.mail, r.authorization, r.body, keyOf, verify) ==>
                resp == Unauthorized() && RegistryUnchanged()
      ensures r.verb == "POST" && CheckAuth(r.mail, r.authorization, r.body, keyOf, verify) ==>
                && resp == Response(StatusCreated, TextPlain, CenterName(r.mail, r.body))
                && lastState == old(lastState)[resp.body := ""]
                && hubs.Keys == old(hubs).Keys + {resp.body}
                && fresh(hubs[resp.body]) && hubs[resp.body].connections == {}
                && (forall k | k in old(hubs) && k != resp.body :: hubs[k] == old(hubs[k]))
                && timers == if timeout > 0 then old(timers) + multiset{Timer(r.mail, r.body)} else old(timers)
    {
      if r.verb != "POST" {
        return NotFound();
      }
      if !CheckAuth(r.mail, r.authorization, r.body, keyOf, verify) {
        return Unauthorized();
      }
      var id := CreateCenter(r.mail, r.body);
      resp := Response(StatusCreated, TextPlain, id);
    }

    /**
     * handleNotify: for an existing center of the signing mail, the body
     * becomes its last message and is broadcast to its hub.
     */
    method HandleNotify(r: Request, keyOf: string -> Option<PublicKey>, verify: Verifier)
      returns (resp: Response)
      requires Valid()
      modifies this, CenterFootprint(CenterName(r.mail, r.center))
      ensures Valid()
      ensures hubs == old(hubs) && timers == old(timers)
      ensures r.verb != "POST" ==> resp == NotFound()
      ensures r.verb == "POST" && !CheckAuth(r.mail, r.authorization, r.body, keyOf, verify) ==>
                resp == Unauthorized()
      ensures (r.verb == "POST" && CheckAuth(r.mail, r.authorization, r.body, keyOf, verify)
               && CenterName(r.mail, r.center) !in old(lastState)) ==> resp == NotFound()
      ensures resp.status != StatusOK ==>
                lastState == old(lastState) && unchanged(old(CenterFootprint(CenterName(r.mail, r.center))))
      ensures resp.status == StatusOK <==>
                && r.verb == "POST" && CheckAuth(r.mail, r.authorization, r.body, keyOf, verify)
                && CenterName(r.mail, r.center) in old(lastState)
      ensures resp.status == StatusOK ==>
                && resp == Response(StatusOK, "", "")
                && lastState == old(lastState)[CenterName(r.mail, r.center) := r.body]
                && BroadcastOutcome(hubs[CenterName(r.mail, r.center)],
                                    old(hubs[CenterName(r.mail, r.center)].connections), r.body)
    {
      if r.verb != "POST" {
        return NotFound();
      }
      if !CheckAuth(r.mail, r.authorization, r.body, keyOf, verify) {
        return Unauthorized();
      }
      var id := CenterName(r.mail, r.center);
      if id !in lastState {
        return NotFound();
      }
      lastState := lastState[id := r.body];
      var h := hubs[id];
      h.Broadcast(r.body);
      resp := Response(StatusOK, "", "");
    }

    /**
     * handleRemoveCenter: the body names the signing mail's center to remove;
     * the existence check on lastState is what makes the hub lookup safe.
     */
    method HandleRemoveCenter(r: Request, keyOf: string -> Option<PublicKey>, verify: Verifier)
      returns (resp: Response)
      requires Valid()
      modifies this, CenterFootprint(CenterName(r.mail, r.body))
      ensures Valid()
      ensures timers == old(timers)
      ensures r.verb != "POST" ==> resp == NotFound()
      ensures r.verb == "POST" && !CheckAuth(r.mail, r.authorization, r.body, keyOf, verify) ==>
                resp == Unauthorized()
      ensures (r.verb == "POST" && CheckAuth(r.mail, r.authorization, r.body, keyOf, verify)
               && CenterName(r.mail, r.body) !in old(lastState)) ==> resp == NotFound()
      ensures resp.status != StatusOK ==>
                RegistryUnchanged() && unchanged(old(CenterFootprint(CenterName(r.mail, r.body))))
      ensures resp.status == StatusOK <==>
                && r.verb == "POST" && CheckAuth(r.mail, r.authorization, r.body, keyOf, verify)
                && CenterName(r.mail, r.body) in old(lastState)
      ensures resp.status == StatusOK ==>
                && resp == Response(StatusOK, "", "")
                && lastState == old(lastState) - {CenterName(r.mail, r.body)}
                && hubs == old(hubs) - {CenterName(r.mail, r.body)}
                && Stopped(old(hubs[CenterName(r.mail, r.body)]), old(hubs[CenterName(r.mail, r.body)].connections))
    {
      if r.verb != "POST" {
        return NotFound();
      }
      if !CheckAuth(r.mail, r.authorization, r.body, keyOf, verify) {
        return Unauthorized();
      }
      var id := CenterName(r.mail, r.body);
      if id !in lastState {
        return NotFound();
      }
      RemoveCenter(r.mail, r.body);
      resp := Response(StatusOK, "", "");
    }
  }
}
