/**
 * The `protect` middleware of the Node backend (backend/node/middleware/auth.js).
 *
 * The decision is a pure function of the Authorization header, the token
 * verifier and the collection. `jwt.verify` with the process-wide secret is the
 * uninterpreted parameter `verify`: it yields the `id` claim of a valid token and
 * None when the call throws. A database outage in `findById` is the parameter `fault`.
 * The effect on the request (attach `req.user`, call `next()`, or send a response)
 * is a method over a request object that records these events in order.
 */
module AuthMiddleware {
  import opened Wrappers
  import opened TextUtil
  import opened AuthController

  /** The token of an Authorization header: present, starting with "Bearer", and its
      second space-separated part non-empty. */
  function BearerToken(header: Option<string>): (t: Option<string>)
    ensures t.Some? ==> header.Some? && StartsWith(header.value, "Bearer")
    ensures t.Some? ==> t.value != "" && ' ' !in t.value
  {
    if header.Some? && StartsWith(header.value, "Bearer") then
      var parts := Split(header.value, ' ');
      if |parts| >= 2 && Truthy(parts[1]) then Some(parts[1]) else None
    else None
  }

  /** The outcome of `protect`: a rejection, or the account to attach to the request. */
  datatype AuthResult = Denied(response: Response) | Granted(user: PublicAccount)

  const NoToken := Response(401, Message("Not authorized - No token provided"))
  const InvalidToken := Response(401, Message("Not authorized - Invalid token"))
  const UnknownUser := Response(401, Message("User not found"))

  /** The decision `protect` takes (auth.js:6-30). Anything thrown after the token is
      extracted, including a store error, lands in the catch block as "Invalid token". */
  function Authenticate(header: Option<string>, verify: string -> Option<UserId>, db: Db, fault: bool): AuthResult
  {
    match BearerToken(header)
    case None => Denied(NoToken)
    case Some(token) =>
      match verify(token)
      case None => Denied(InvalidToken)
      case Some(id) =>
        if fault then Denied(InvalidToken)
        else if id !in db.users then Denied(UnknownUser)
        else Granted(WithoutPassword(db.users[id]))
  }

  // ---------------------------------------------------------------- properties

  /** A well-formed bearer header yields exactly its token. */
  lemma BearerRoundTrip(scheme: string, token: string)
    requires StartsWith(scheme, "Bearer") && ' ' !in scheme
    requires token != "" && ' ' !in token
    ensures BearerToken(Some(scheme + " " + token)) == Some(token)
  {
    SplitJoin([scheme, token], ' ');
    assert Join([scheme, token], " ") == scheme + " " + token;
    assert (scheme + " " + token)[..|"Bearer"|] == scheme[..|"Bearer"|];
  }

  /** Only the second part counts: text after a further space is ignored. */
  lemma BearerIgnoresTrailingParts(token: string, rest: string)
    requires token != "" && ' ' !in token
    ensures BearerToken(Some("Bearer " + token + " " + rest)) == Some(token)
  {
    var h := "Bearer " + token + " " + rest;
    assert h == "Bearer" + [' '] + (token + [' '] + rest);
    SplitPrefix("Bearer", ' ', token + [' '] + rest);
    SplitPrefix(token, ' ', rest);
    assert h[..|"Bearer"|] == "Bearer";
  }

  /** Headers that give no token: a bare scheme, a doubled space, a different scheme. */
  lemma BearerRejects(token: string)
    ensures BearerToken(None) == None
    ensures BearerToken(Some("Bearer")) == None
    ensures BearerToken(Some("Bearer  " + token)) == None
    ensures BearerToken(Some("Basic " + token)) == None
  {
    SplitWithout("Bearer", ' ');
    var h := "Bearer  " + token;
    assert h == "Bearer" + [' '] + ([' '] + token);
    SplitPrefix("Bearer", ' ', [' '] + token);
    SplitPrefix("", ' ', token);
    assert [] + [' '] + token == [' '] + token;
    assert ("Basic " + token)[..6] == "Basic ";
  }

  /** No token: 401 "No token provided", and nothing else is consulted. */
  lemma DeniedWithoutToken(header: Option<string>, verify: string -> Option<UserId>, db: Db, fault: bool)
    ensures BearerToken(header).None? <==> Authenticate(header, verify, db, fault) == Denied(NoToken)
  {
  }

  /** A token that fails verification, or a store error while loading the account,
      gives 401 "Invalid token". */
  lemma DeniedInvalidToken(header: Option<string>, verify: string -> Option<UserId>, db: Db, fault: bool)
    requires BearerToken(header).Some?
    ensures (verify(BearerToken(header).value).None? || fault)
            <==> Authenticate(header, verify, db, fault) == Denied(InvalidToken)
  {
  }

  /** A verified token whose id has no account gives 401 "User not found". */
  lemma DeniedUnknownUser(header: Option<string>, verify: string -> Option<UserId>, db: Db)
    requires BearerToken(header).Some? && verify(BearerToken(header).value).Some?
    ensures verify(BearerToken(header).value).value !in db.users
            <==> Authenticate(header, verify, db, false) == Denied(UnknownUser)
  {
  }

  /** Access is granted only to the stored account named by a verified token, loaded
      without its password; every rejection is a 401. */
  lemma GrantedOnlyToStoredAccount(header: Option<string>, verify: string -> Option<UserId>, db: Db, fault: bool)
    ensures var r := Authenticate(header, verify, db, fault);
      r.Granted? ==>
        && !fault && BearerToken(header).Some?
        && verify(BearerToken(header).value).Some?
        && var id := verify(BearerToken(header).value).value;
        && id in db.users && r.user == WithoutPassword(db.users[id])
    ensures Authenticate(header, verify, db, fault).Denied? ==>
              Authenticate(header, verify, db, fault).response.status == 401
  {
  }

  // ---------------------------------------------------------------- the request

  /** What happens to a request, in order. */
  datatype Event = Attached(user: PublicAccount) | NextCalled | Sent(response: Response)

  /** An in-flight request: its Authorization header, `req.user`, and the events so far. */
  class Exchange {
    const authorization: Option<string>
    var user: Option<PublicAccount>
    var events: seq<Event>

    constructor (authorization: Option<string>)
      ensures this.authorization == authorization && user == None && events == []
    {
      this.authorization := authorization;
      user := None;
      events := [];
    }
  }

  /** protect: rejects with a response, or sets `req.user` and then calls `next()` once. */
  method Protect(ex: Exchange, store: UserStore, verify: string -> Option<UserId>, fault: bool)
    modifies ex
    ensures match Authenticate(ex.authorization, verify, store.State(), fault)
      case Denied(r) => ex.user == old(ex.user) && ex.events == old(ex.events) + [Sent(r)]
      case Granted(u) => ex.user == Some(u) && ex.events == old(ex.events) + [Attached(u), NextCalled]
  {
    var token := BearerToken(ex.authorization);
    if token.None? {
      ex.events := ex.events + [Sent(NoToken)];
      return;
    }
    var decoded := verify(token.value);
    if decoded.None? || fault {
      ex.events := ex.events + [Sent(InvalidToken)];
      return;
    }
    if decoded.value !in store.users {
      ex.events := ex.events + [Sent(UnknownUser)];
      return;
    }
    var user := WithoutPassword(store.users[decoded.value]);
    ex.user := Some(user);
    ex.events := ex.events + [Attached(user)];
    ex.events := ex.events + [NextCalled];
  }
}
