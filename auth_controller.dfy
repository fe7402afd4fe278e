/**
 * The account handlers of the Node backend (backend/node/controllers/authController.js):
 * registration, login and profile update over the `UserAuth` collection.
 *
 * The collection is a map from account id to account. Mongo's `_id` is modelled
 * by a counter `nextId`, so every id in the map is below it. `User.findOne({email})`
 * returns the account with the lowest id holding that email (Mongo's natural
 * order is insertion order). The password comparison of the `UserAuth` model and
 * its token minting are uninterpreted function parameters: `compare(account, candidate)`
 * and `mint(id)`. A database outage is the parameter `fault` (the text of the error raised).
 */
module AuthController {
  import opened Wrappers
  import opened TextUtil

  type UserId = nat

  /** A stored account. `password` is whatever the model's save hook keeps for the submitted password. */
  datatype Account = Account(
    id: UserId, name: string, email: string, password: string, address: string, gender: string)

  /** An account document loaded without its password (`select("-password")`), and the
      `{id, name, email, address, gender}` shape of the profile responses. */
  datatype PublicAccount = PublicAccount(
    id: UserId, name: string, email: string, address: string, gender: string)

  /** The `user: {id, name, email}` part of the register and login responses. */
  datatype UserSummary = UserSummary(id: UserId, name: string, email: string)

  datatype Body =
    | Message(message: string)
    | Session(success: bool, message: string, token: string, user: UserSummary)
    | Profile(profile: PublicAccount)

  /** An HTTP response: status code and JSON body. No body shape has a password field. */
  datatype Response = Response(status: nat, body: Body)

  /** `req.body` of the account routes; "" stands for an absent or empty field (both are
      falsy). Register reads all five fields, login reads email and password, and profile
      update reads all but the password. */
  datatype RequestBody = RequestBody(
    name: string, email: string, password: string, address: string, gender: string)

  /** The whole collection: accounts by id, and the next id to hand out. */
  datatype Db = Db(users: map<UserId, Account>, nextId: nat)

  /** A handler's effect: the collection afterwards and the response sent. */
  datatype Step = Step(db: Db, response: Response)

  ghost predicate WellFormed(db: Db)
  {
    forall id :: id in db.users ==> id < db.nextId && db.users[id].id == id
  }

  function Summary(a: Account): UserSummary
  {
    UserSummary(a.id, a.name, a.email)
  }

  function WithoutPassword(a: Account): PublicAccount
  {
    PublicAccount(a.id, a.name, a.email, a.address, a.gender)
  }

  predicate HasEmail(users: map<UserId, Account>, id: UserId, email: string)
  {
    id in users && users[id].email == email
  }

  /** `User.findOne({email})`: the lowest id in [from, bound) whose account has `email`. */
  function FindByEmailFrom(users: map<UserId, Account>, email: string, from: nat, bound: nat): (r: Option<UserId>)
    decreases bound - from
    ensures r.Some? ==> from <= r.value < bound && HasEmail(users, r.value, email)
    ensures r.Some? ==> forall j :: from <= j < r.value ==> !HasEmail(users, j, email)
    ensures r.None? ==> forall j :: from <= j < bound ==> !HasEmail(users, j, email)
  {
    if from >= bound then None
    else if HasEmail(users, from, email) then Some(from)
    else FindByEmailFrom(users, email, from + 1, bound)
  }

  function FindByEmail(db: Db, email: string): Option<UserId>
  {
    FindByEmailFrom(db.users, email, 0, db.nextId)
  }

  /** Some stored account has `email`. */
  ghost predicate EmailTaken(db: Db, email: string)
  {
    exists id :: HasEmail(db.users, id, email)
  }

  lemma FindByEmailFinds(db: Db, email: string)
    requires WellFormed(db)
    ensures FindByEmail(db, email).Some? <==> EmailTaken(db, email)
    ensures FindByEmail(db, email).Some? ==> HasEmail(db.users, FindByEmail(db, email).value, email)
  {
  }

  /** registerUser: the duplicate check, then a new account, then a token. */
  function Register(db: Db, req: RequestBody, fault: Option<string>, mint: UserId -> string): Step
  {
    if fault.Some? then Step(db, Response(500, Message(fault.value)))
    else if FindByEmail(db, req.email).Some? then Step(db, Response(400, Message("User already exists")))
    else
      var a := Account(db.nextId, req.name, req.email, req.password, req.address, req.gender);
      Step(Db(db.users[a.id := a], db.nextId + 1),
           Response(201, Session(true, "User registered successfully", mint(a.id), Summary(a))))
  }

  /** loginUser: lookup by email, password comparison, then a token. Changes nothing. */
  function Login(db: Db, email: string, password: string, fault: bool,
                 compare: (Account, string) -> bool, mint: UserId -> string): Response
  {
    if fault then Response(500, Message("Server error"))
    else match FindByEmail(db, email)
      case None => Response(401, Message("Email not registered"))
      case Some(id) =>
        if id !in db.users then Response(401, Message("Email not registered"))
        else
          var a := db.users[id];
          if !compare(a, password) then Response(401, Message("Incorrect password"))
          else Response(200, Session(true, "Login successful", mint(a.id), Summary(a)))
  }

  /** The four assignments of updateProfile applied to one account. */
  function Merge(a: Account, upd: RequestBody): Account
  {
    a.(name := OrElse(upd.name, a.name), email := OrElse(upd.email, a.email),
       address := OrElse(upd.address, a.address), gender := OrElse(upd.gender, a.gender))
  }

  /** updateProfile for the account `id` that `protect` attached to the request. */
  function Update(db: Db, id: UserId, upd: RequestBody, fault: bool): Step
  {
    if fault then Step(db, Response(500, Message("Error updating profile")))
    else if id !in db.users then Step(db, Response(404, Message("User not found")))
    else
      var a := Merge(db.users[id], upd);
      Step(db.(users := db.users[id := a]), Response(200, Profile(WithoutPassword(a))))
  }

  // ---------------------------------------------------------------- properties

  /** Registering a taken email answers 400 and stores nothing; the check comes first. */
  lemma RegisterDuplicate(db: Db, req: RequestBody, mint: UserId -> string)
    requires WellFormed(db)
    ensures var s := Register(db, req, None, mint);
      EmailTaken(db, req.email) <==> (s.db == db && s.response == Response(400, Message("User already exists")))
  {
    FindByEmailFinds(db, req.email);
  }

  /** A successful registration stores exactly the submitted fields under a fresh id and
      answers 201 with a token for that id and the summary without the password. */
  lemma RegisterStoresSubmitted(db: Db, req: RequestBody, mint: UserId -> string)
    requires WellFormed(db)
    requires !EmailTaken(db, req.email)
    ensures var s := Register(db, req, None, mint);
      && WellFormed(s.db)
      && db.nextId !in db.users
      && s.db.users.Keys == db.users.Keys + {db.nextId}
      && (forall id :: id in db.users ==> s.db.users[id] == db.users[id])
      && var a := s.db.users[db.nextId];
      && a.name == req.name && a.email == req.email && a.password == req.password
      && a.address == req.address && a.gender == req.gender
      && s.response == Response(201, Session(true, "User registered successfully", mint(db.nextId),
                                             UserSummary(db.nextId, req.name, req.email)))
  {
    FindByEmailFinds(db, req.email);
  }

  /** Every handler keeps the collection well formed. */
  lemma HandlersPreserveWellFormed(db: Db, req: RequestBody, fault: Option<string>, mint: UserId -> string,
                                   id: UserId, upd: RequestBody, updFault: bool)
    requires WellFormed(db)
    ensures WellFormed(Register(db, req, fault, mint).db)
    ensures WellFormed(Update(db, id, upd, updFault).db)
  {
  }

  /** An unregistered email answers 401 "Email not registered" and no token. */
  lemma LoginUnknownEmail(db: Db, email: string, password: string,
                          compare: (Account, string) -> bool, mint: UserId -> string)
    requires WellFormed(db)
    ensures !EmailTaken(db, email) <==>
            Login(db, email, password, false, compare, mint) == Response(401, Message("Email not registered"))
  {
    FindByEmailFinds(db, email);
  }

  /** A registered email with a failing comparison answers 401 "Incorrect password". */
  lemma LoginWrongPassword(db: Db, email: string, password: string,
                           compare: (Account, string) -> bool, mint: UserId -> string)
    requires WellFormed(db)
    requires EmailTaken(db, email)
    ensures var id := FindByEmail(db, email).value;
      !compare(db.users[id], password) <==>
      Login(db, email, password, false, compare, mint) == Response(401, Message("Incorrect password"))
  {
    FindByEmailFinds(db, email);
  }

  /** A token is issued exactly when the lookup and the comparison both succeed, and it is
      the token minted for the account found. */
  lemma LoginTokenOnlyAfterChecks(db: Db, email: string, password: string, fault: bool,
                                  compare: (Account, string) -> bool, mint: UserId -> string)
    requires WellFormed(db)
    ensures var r := Login(db, email, password, fault, compare, mint);
      r.body.Session? <==>
        (!fault && EmailTaken(db, email) && compare(db.users[FindByEmail(db, email).value], password))
    ensures var r := Login(db, email, password, fault, compare, mint);
      r.body.Session? ==> r.status == 200 && r.body.token == mint(FindByEmail(db, email).value)
  {
    FindByEmailFinds(db, email);
  }

  /** Register then login with the same credentials succeeds with a token for the new
      account, provided the comparison accepts the stored password. */
  lemma RegisterThenLogin(db: Db, req: RequestBody, compare: (Account, string) -> bool,
                          mint: UserId -> string)
    requires WellFormed(db)
    requires !EmailTaken(db, req.email)
    requires forall a: Account :: compare(a, a.password)
    ensures var db' := Register(db, req, None, mint).db;
      Login(db', req.email, req.password, false, compare, mint)
        == Response(200, Session(true, "Login successful", mint(db.nextId),
                                 UserSummary(db.nextId, req.name, req.email)))
  {
    RegisterStoresSubmitted(db, req, mint);
    var db' := Register(db, req, None, mint).db;
    FindByEmailFinds(db, req.email);
    var found := FindByEmail(db', req.email);
    assert HasEmail(db'.users, db.nextId, req.email);
    FindByEmailFinds(db', req.email);
    if found.value != db.nextId {
      assert found.value in db.users;
      assert HasEmail(db.users, found.value, req.email);
      assert false;
    }
  }

  /** The register response does not depend on the submitted password. */
  lemma RegisterResponseIgnoresPassword(db: Db, req: RequestBody, other: string,
                                        fault: Option<string>, mint: UserId -> string)
    ensures Register(db, req, fault, mint).response == Register(db, req.(password := other), fault, mint).response
  {
  }

  /** Two collections that differ only in stored passwords. */
  ghost predicate SameExceptPasswords(d1: Db, d2: Db)
  {
    && d1.nextId == d2.nextId && d1.users.Keys == d2.users.Keys
    && forall id :: id in d1.users ==> WithoutPassword(d1.users[id]) == WithoutPassword(d2.users[id])
  }

  /** The update response does not depend on the stored password. */
  lemma UpdateResponseIgnoresPassword(d1: Db, d2: Db, id: UserId, upd: RequestBody, fault: bool)
    requires SameExceptPasswords(d1, d2)
    ensures Update(d1, id, upd, fault).response == Update(d2, id, upd, fault).response
  {
    if !fault && id in d1.users {
      assert WithoutPassword(d1.users[id]) == WithoutPassword(d2.users[id]);
    }
  }

  /** updateProfile on an unknown id answers 404 and changes nothing. */
  lemma UpdateUnknownUser(db: Db, id: UserId, upd: RequestBody)
    ensures var s := Update(db, id, upd, false);
      id !in db.users <==> (s.db == db && s.response == Response(404, Message("User not found")))
  {
  }

  /** updateProfile replaces a field only by a truthy submitted value, never touches the
      id or the password or any other account, and answers with exactly the five public fields. */
  lemma UpdateTouchesOnlyProfileFields(db: Db, id: UserId, upd: RequestBody)
    requires id in db.users
    ensures var s := Update(db, id, upd, false);
      && s.db.nextId == db.nextId && s.db.users.Keys == db.users.Keys
      && (forall other :: other in db.users && other != id ==> s.db.users[other] == db.users[other])
      && var old_, new_ := db.users[id], s.db.users[id];
      && new_.id == old_.id && new_.password == old_.password
      && (new_.name == if upd.name != "" then upd.name else old_.name)
      && (new_.email == if upd.email != "" then upd.email else old_.email)
      && (new_.address == if upd.address != "" then upd.address else old_.address)
      && (new_.gender == if upd.gender != "" then upd.gender else old_.gender)
      && s.response == Response(200, Profile(PublicAccount(new_.id, new_.name, new_.email, new_.address, new_.gender)))
  {
  }

  /** Repeating an update changes nothing more, and an update with every field empty is a no-op. */
  lemma UpdateIdempotent(db: Db, id: UserId, upd: RequestBody)
    ensures var s := Update(db, id, upd, false);
      Update(s.db, id, upd, false) == s
    ensures Update(db, id, RequestBody("", "", "", "", ""), false).db == db
  {
    if id in db.users {
      var a := db.users[id];
      assert Merge(Merge(a, upd), upd) == Merge(a, upd);
      assert Merge(a, RequestBody("", "", "", "", "")) == a;
      assert db.users[id := a] == db.users;
    }
  }

  // ---------------------------------------------------------------- the store

  /** The `UserAuth` collection as the handlers see it; each handler is one method. */
  class UserStore {
    var users: map<UserId, Account>
    var nextId: nat

    function State(): Db
      reads this
    {
      Db(users, nextId)
    }

    ghost predicate Valid()
      reads this
    {
      WellFormed(State())
    }

    constructor ()
      ensures Valid() && users == map[] && nextId == 0
    {
      users := map[];
      nextId := 0;
    }

    /** registerUser (authController.js:4-39). */
    method RegisterUser(req: RequestBody, fault: Option<string>, mint: UserId -> string)
      returns (res: Response)
      requires Valid()
      modifies this
      ensures Valid()
      ensures State() == Register(old(State()), req, fault, mint).db
      ensures res == Register(old(State()), req, fault, mint).response
    {
      if fault.Some? {
        return Response(500, Message(fault.value));
      }
      var userExists := FindByEmail(State(), req.email);
      if userExists.Some? {
        return Response(400, Message("User already exists"));
      }
      var user := Account(nextId, req.name, req.email, req.password, req.address, req.gender);
      users := users[user.id := user];
      nextId := nextId + 1;
      var token := mint(user.id);
      res := Response(201, Session(true, "User registered successfully", token, Summary(user)));
    }

    /** loginUser (authController.js:42-72): reads the collection and changes nothing. */
    method LoginUser(email: string, password: string, fault: bool,
                     compare: (Account, string) -> bool, mint: UserId -> string)
      returns (res: Response)
      requires Valid()
      ensures res == Login(State(), email, password, fault, compare, mint)
      ensures res.body.Session? ==> EmailTaken(State(), email)
    {
      if fault {
        return Response(500, Message("Server error"));
      }
      var found := FindByEmail(State(), email);
      if found.None? || found.value !in users {
        return Response(401, Message("Email not registered"));
      }
      var user := users[found.value];
      var isMatch := compare(user, password);
      if !isMatch {
        return Response(401, Message("Incorrect password"));
      }
      var token := mint(user.id);
      res := Response(200, Session(true, "Login successful", token, Summary(user)));
    }

    /** updateProfile (authController.js:84-111): loads the account, assigns the four
        fields in place and saves it. */
    method UpdateProfile(id: UserId, upd: RequestBody, fault: bool) returns (res: Response)
      requires Valid()
      modifies this
      ensures Valid()
      ensures State() == Update(old(State()), id, upd, fault).db
      ensures res == Update(old(State()), id, upd, fault).response
    {
      if fault {
        return Response(500, Message("Error updating profile"));
      }
      if id !in users {
        return Response(404, Message("User not found"));
      }
      var user := users[id];
      user := user.(name := OrElse(upd.name, user.name));
      user := user.(email := OrElse(upd.email, user.email));
      user := user.(address := OrElse(upd.address, user.address));
      user := user.(gender := OrElse(upd.gender, user.gender));
      users := users[id := user];
      res := Response(200, Profile(WithoutPassword(user)));
    }
  }
}
