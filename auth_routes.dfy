/**
 * The account router of the Node backend (backend/node/routes/authRoutes.js): which
 * handler answers which verb and path, which routes run `protect` first, and the
 * GET /profile projection of the attached user.
 *
 * `Serve` plays the router's part: it finds the route as a router made with default
 * options does (letters without regard to case, one optional trailing "/", HEAD served
 * by GET routes), runs `protect` when the route is guarded and calls the handler only
 * after `next()`.
 */
module AuthRoutes {
  import opened Wrappers
  import opened TextUtil
  import opened AuthController
  import opened AuthMiddleware

  /** The request methods the router has routes for; HEAD is answered by GET routes. */
  datatype Verb = Get | Head | Post | Put

  /** The handlers the router imports; `GetUsers` is imported but never mounted. */
  datatype Handler = RegisterUser | LoginUser | GetUsers | GetProfile | UpdateProfile

  datatype Route = Route(verb: Verb, path: string, guarded: bool, handler: Handler)

  /** The mounted routes, in declaration order. Every path is written in lower case. */
  const Routes: seq<Route> := [
    Route(Post, "/register", false, RegisterUser),
    Route(Post, "/login", false, LoginUser),
    Route(Get, "/profile", true, GetProfile),
    Route(Put, "/profile", true, UpdateProfile)
  ]

  /** A route answers its own method, and a GET route, having no HEAD handler of its own,
      also answers HEAD. */
  predicate VerbMatches(routeVerb: Verb, verb: Verb)
  {
    routeVerb == verb || (verb == Head && routeVerb == Get)
  }

  /** The path test of a router made with default options: letters match without regard
      to case and one trailing "/" is allowed. `routePath` is in lower case. */
  predicate PathMatches(routePath: string, path: string)
  {
    Lower(path) == routePath || Lower(path) == routePath + "/"
  }

  /** The first route matching a verb and path, in declaration order. */
  function FindRouteFrom(verb: Verb, path: string, i: nat): (r: Option<Route>)
    requires i <= |Routes|
    decreases |Routes| - i
    ensures r.Some? ==> r.value in Routes[i..] && VerbMatches(r.value.verb, verb) && PathMatches(r.value.path, path)
    ensures r.None? ==> forall k :: i <= k < |Routes| ==> !(VerbMatches(Routes[k].verb, verb) && PathMatches(Routes[k].path, path))
  {
    if i == |Routes| then None
    else if VerbMatches(Routes[i].verb, verb) && PathMatches(Routes[i].path, path) then Some(Routes[i])
    else FindRouteFrom(verb, path, i + 1)
  }

  function FindRoute(verb: Verb, path: string): Option<Route>
  {
    FindRouteFrom(verb, path, 0)
  }

  /** The GET /profile handler: the five public fields of the user `protect` attached. */
  function ProfileResponse(user: PublicAccount): (r: Response)
    ensures r.status == 200 && r.body.Profile?
    ensures r.body.profile.id == user.id && r.body.profile.name == user.name && r.body.profile.email == user.email
    ensures r.body.profile.address == user.address && r.body.profile.gender == user.gender
  {
    Response(200, Profile(PublicAccount(user.id, user.name, user.email, user.address, user.gender)))
  }

  // ---------------------------------------------------------------- properties

  /** A request path matches at most one of the three route paths. */
  lemma PathsDisjoint(path: string)
    ensures !(PathMatches("/register", path) && PathMatches("/login", path))
    ensures !(PathMatches("/register", path) && PathMatches("/profile", path))
    ensures !(PathMatches("/login", path) && PathMatches("/profile", path))
  {
    var l := Lower(path);
    if PathMatches("/register", path) {
      assert |l| == 9 || |l| == 10;
      assert l[1] == 'r';
    }
    if PathMatches("/login", path) {
      assert |l| == 6 || |l| == 7;
    }
  }

  /** Whatever the case of its letters and with or without a trailing "/": /register and
      /login are open POST routes, GET and HEAD /profile reach the guarded profile handler,
      PUT /profile the guarded update, and GetUsers has no route. */
  lemma {:induction false} RouteTable(path: string)
    ensures PathMatches("/register", path) ==> FindRoute(Post, path) == Some(Route(Post, "/register", false, RegisterUser))
    ensures PathMatches("/login", path) ==> FindRoute(Post, path) == Some(Route(Post, "/login", false, LoginUser))
    ensures PathMatches("/profile", path) ==>
      && FindRoute(Get, path) == Some(Route(Get, "/profile", true, GetProfile))
      && FindRoute(Head, path) == Some(Route(Get, "/profile", true, GetProfile))
      && FindRoute(Put, path) == Some(Route(Put, "/profile", true, UpdateProfile))
    ensures forall k :: 0 <= k < |Routes| ==> Routes[k].handler != GetUsers
  {
    PathsDisjoint(path);
    if PathMatches("/login", path) {
      assert FindRouteFrom(Post, path, 1) == Some(Routes[1]);
    }
    if PathMatches("/profile", path) {
      assert FindRouteFrom(Put, path, 3) == Some(Routes[3]);
      assert FindRouteFrom(Put, path, 2) == Some(Routes[3]);
      assert FindRouteFrom(Put, path, 1) == Some(Routes[3]);
      assert FindRouteFrom(Get, path, 2) == Some(Routes[2]);
      assert FindRouteFrom(Get, path, 1) == Some(Routes[2]);
      assert FindRouteFrom(Head, path, 2) == Some(Routes[2]);
      assert FindRouteFrom(Head, path, 1) == Some(Routes[2]);
    }
  }

  /** The paths as a browser may send them: upper-case letters and a trailing "/" still
      reach the profile routes. */
  lemma CaseAndSlashReachProfile()
    ensures FindRoute(Put, "/Profile/") == Some(Route(Put, "/profile", true, UpdateProfile))
    ensures FindRoute(Head, "/PROFILE") == Some(Route(Get, "/profile", true, GetProfile))
  {
    var a, b := Lower("/Profile/"), Lower("/PROFILE");
    assert a == "/profile/" by {
      assert |a| == 9 && a[0] == '/' && a[1] == 'p' && a[2] == 'r' && a[3] == 'o' && a[4] == 'f';
      assert a[5] == 'i' && a[6] == 'l' && a[7] == 'e' && a[8] == '/';
    }
    assert b == "/profile" by {
      assert |b| == 8 && b[0] == '/' && b[1] == 'p' && b[2] == 'r' && b[3] == 'o' && b[4] == 'f';
      assert b[5] == 'i' && b[6] == 'l' && b[7] == 'e';
    }
    RouteTable("/Profile/");
    RouteTable("/PROFILE");
  }

  /** A route is guarded exactly when the request path is /profile (in any case, with or
      without a trailing "/"), that is, exactly when its handler reads the attached user. */
  lemma GuardedIffProfile(verb: Verb, path: string)
    ensures var r := FindRoute(verb, path);
      r.Some? ==>
        && (r.value.guarded <==> PathMatches("/profile", path))
        && (r.value.guarded <==> r.value.handler in {GetProfile, UpdateProfile})
  {
    PathsDisjoint(path);
  }

  /** The external collaborators of one request. */
  datatype Backend = Backend(
    verify: string -> Option<UserId>,
    compare: (Account, string) -> bool,
    mint: UserId -> string,
    fault: Option<string>,  // the store is down, with this error text
    updateFault: bool)      // the update's own lookup or save fails after `protect` succeeded

  /**
   * One request through the router. A guarded route whose `protect` rejects sends the
   * rejection and leaves the store as it was: no handler runs without an attached user.
   * GET /profile answers from the attached user alone, and PUT /profile updates the
   * account that `protect` loaded, unless the update's own lookup or save fails, which
   * answers 500 and changes nothing.
   */
  method Serve(store: UserStore, ex: Exchange, verb: Verb, path: string, body: RequestBody, env: Backend)
    returns (res: Option<Response>)
    requires store.Valid() && ex.events == []
    modifies store, ex
    ensures store.Valid()
    ensures FindRoute(verb, path).None? ==> res.None? && store.State() == old(store.State()) && ex.events == []
    ensures FindRoute(verb, path).Some? ==> res.Some? && ex.events != [] && ex.events[|ex.events| - 1] == Sent(res.value)
    ensures var r := FindRoute(verb, path);
      r.Some? && r.value.guarded ==>
        match Authenticate(ex.authorization, env.verify, old(store.State()), env.fault.Some?)
        case Denied(rejection) =>
          res == Some(rejection) && store.State() == old(store.State()) && ex.events == [Sent(rejection)]
        case Granted(u) =>
          && ex.user == Some(u) && res.Some? && ex.events == [Attached(u), NextCalled, Sent(res.value)]
          && (r.value.handler == GetProfile ==>
                res == Some(ProfileResponse(u)) && store.State() == old(store.State()))
          && (r.value.handler == UpdateProfile ==>
                && store.State() == Update(old(store.State()), u.id, body, env.updateFault).db
                && res == Some(Update(old(store.State()), u.id, body, env.updateFault).response)
                && res.value.status == (if env.updateFault then 500 else 200))
    ensures var r := FindRoute(verb, path);
      r.Some? && r.value.handler == RegisterUser ==>
        store.State() == Register(old(store.State()), body, env.fault, env.mint).db
        && res == Some(Register(old(store.State()), body, env.fault, env.mint).response)
    ensures var r := FindRoute(verb, path);
      r.Some? && r.value.handler == LoginUser ==>
        store.State() == old(store.State())
        && res == Some(Login(old(store.State()), body.email, body.password, env.fault.Some?, env.compare, env.mint))
  {
    var route := FindRoute(verb, path);
    if route.None? {
      return None;
    }
    var r := route.value;
    if r.guarded {
      Protect(ex, store, env.verify, env.fault.Some?);
      if ex.events[|ex.events| - 1] != NextCalled {
        return Some(ex.events[|ex.events| - 1].response);
      }
    }
    var response := RunHandler(store, ex.user, r.handler, body, env);
    ex.events := ex.events + [Sent(response)];
    res := Some(response);
  }

  /** The handler of a matched route, run once `protect` (on a guarded route) has attached
      the user. The update looks the account up again and saves it, and either step can
      fail on its own (`env.updateFault`). */
  method RunHandler(store: UserStore, user: Option<PublicAccount>, handler: Handler, body: RequestBody, env: Backend)
    returns (response: Response)
    requires store.Valid() && handler != GetUsers
    requires handler == GetProfile || handler == UpdateProfile ==> user.Some?
    modifies store
    ensures store.Valid()
    ensures handler == RegisterUser ==>
      store.State() == Register(old(store.State()), body, env.fault, env.mint).db
      && response == Register(old(store.State()), body, env.fault, env.mint).response
    ensures handler == LoginUser ==>
      store.State() == old(store.State())
      && response == Login(old(store.State()), body.email, body.password, env.fault.Some?, env.compare, env.mint)
    ensures handler == GetProfile ==> store.State() == old(store.State()) && response == ProfileResponse(user.value)
    ensures handler == UpdateProfile ==>
      store.State() == Update(old(store.State()), user.value.id, body, env.updateFault).db
      && response == Update(old(store.State()), user.value.id, body, env.updateFault).response
  {
    if handler == RegisterUser {
      response := store.RegisterUser(body, env.fault, env.mint);
    } else if handler == LoginUser {
      response := store.LoginUser(body.email, body.password, env.fault.Some?, env.compare, env.mint);
    } else if handler == GetProfile {
      response := ProfileResponse(user.value);
    } else {
      response := store.UpdateProfile(user.value.id, body, env.updateFault);
    }
  }
}
