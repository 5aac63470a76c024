/**
 * The decisions of `auth.ts`: the credentials provider's `authorize`, the
 * `jwt` callback (NO_NAME renaming, moving the anonymous session cart to the
 * user who signs in, the name override on update) and the `session` callback.
 * The user and cart tables are an in-memory `Store`; the cookie, the trigger
 * and the password comparison are inputs.
 */
module Auth {
  import opened Wrappers
  import opened JsText

  // ---------------------------------------------------------------------------
  // authorize

  /** A credential field as received: a string or any other value. */
  datatype Field = Text(s: string) | NotText

  datatype Credentials = Credentials(email: Field, password: Field)

  /** A stored user; `password` is None when the column is not a string. */
  datatype UserRecord = UserRecord(id: string, name: string, email: string, role: string, password: Option<string>)

  /** What `authorize` hands to the session: id, name, e-mail and role only. */
  datatype AuthUser = AuthUser(id: string, name: string, email: string, role: string)

  /** `findFirst({ where: { email } })`: the position of the first user with that e-mail, or |users|. */
  function FirstWithEmail(users: seq<UserRecord>, email: string): (i: nat)
    ensures i <= |users|
    ensures forall j :: 0 <= j < i ==> users[j].email != email
    ensures i < |users| ==> users[i].email == email
    decreases |users|
  {
    if users == [] then 0
    else if users[0].email == email then 0
    else 1 + FirstWithEmail(users[1..], email)
  }

  /** Input checks before any lookup: credentials present, both fields strings, a non-blank password. */
  predicate WellFormedInput(creds: Option<Credentials>) {
    && creds.Some?
    && creds.value.email.Text?
    && creds.value.password.Text?
    && !IsBlank(creds.value.password.s)
  }

  /** `authorize`, with `matches(plain, hash)` standing for the password comparison. */
  function Authorize(creds: Option<Credentials>, users: seq<UserRecord>, matches: (string, string) -> bool): (r: Option<AuthUser>)
    ensures !WellFormedInput(creds) ==> r.None?
    ensures r.Some? ==>
      var i := FirstWithEmail(users, creds.value.email.s);
      && i < |users|
      && users[i].password.Some?
      && matches(creds.value.password.s, users[i].password.value)
      && r.value == AuthUser(users[i].id, users[i].name, users[i].email, users[i].role)
  {
    if !WellFormedInput(creds) then None
    else
      var c := creds.value;
      var i := FirstWithEmail(users, c.email.s);
      if i == |users| then None
      else
        var u := users[i];
        if u.password.None? then None
        else if !matches(c.password.s, u.password.value) then None
        else Some(AuthUser(u.id, u.name, u.email, u.role))
  }

  /** Well-formed credentials for an existing user with a stored password succeed exactly when the password matches. */
  lemma AuthorizeIff(creds: Option<Credentials>, users: seq<UserRecord>, matches: (string, string) -> bool)
    ensures Authorize(creds, users, matches).Some? <==>
      && WellFormedInput(creds)
      && FirstWithEmail(users, creds.value.email.s) < |users|
      && users[FirstWithEmail(users, creds.value.email.s)].password.Some?
      && matches(creds.value.password.s, users[FirstWithEmail(users, creds.value.email.s)].password.value)
  {
  }

  /** An e-mail address that no user has is always refused. */
  lemma UnknownEmailRefused(creds: Credentials, users: seq<UserRecord>, matches: (string, string) -> bool)
    requires creds.email.Text?
    requires forall k :: 0 <= k < |users| ==> users[k].email != creds.email.s
    ensures Authorize(Some(creds), users, matches).None?
  {
  }

  // ---------------------------------------------------------------------------
  // Names

  /** `email?.split('@')[0] ?? 'User'` */
  function DefaultName(email: Option<string>): (r: string)
    ensures email.None? ==> r == "User"
    ensures email.Some? ==> '@' !in r && StartsWith(email.value, r)
    ensures email.Some? ==> r == email.value || email.value[|r|] == '@'
  {
    match email
    case None => "User"
    case Some(e) =>
      SplitFirst(e, '@');
      Split(e, '@')[0]
  }

  /** An address without '@' is its own default name; otherwise the name is the local part. */
  lemma DefaultNameOfAddress(local: string, domain: string)
    requires '@' !in local
    ensures DefaultName(Some(local + "@" + domain)) == local
  {
    SplitAtFirst(local, '@', domain);
  }

  // ---------------------------------------------------------------------------
  // The cart table and the session-cart transfer

  datatype Cart = Cart(id: string, sessionCartId: string, userId: Option<string>)

  /** `cart.findFirst({ where: { sessionCartId } })` */
  function FindSessionCart(carts: seq<Cart>, sessionCartId: string): (r: Option<Cart>)
    ensures r.Some? ==> r.value in carts && r.value.sessionCartId == sessionCartId
    ensures r.None? ==> forall c :: c in carts ==> c.sessionCartId != sessionCartId
  {
    if carts == [] then None
    else if carts[0].sessionCartId == sessionCartId then Some(carts[0])
    else FindSessionCart(carts[1..], sessionCartId)
  }

  /** `cart.deleteMany({ where: { userId } })` */
  function WithoutOwner(carts: seq<Cart>, userId: string): (r: seq<Cart>)
    ensures forall c :: c in r <==> c in carts && c.userId != Some(userId)
  {
    if carts == [] then []
    else (if carts[0].userId == Some(userId) then [] else [carts[0]]) + WithoutOwner(carts[1..], userId)
  }

  /** The carts after `cart.update({ where: { id }, data: { userId } })` found its record. */
  function Assigned(carts: seq<Cart>, cartId: string, userId: string): (r: seq<Cart>)
    ensures |r| == |carts|
    ensures forall k :: 0 <= k < |r| ==>
      r[k] == if carts[k].id == cartId then carts[k].(userId := Some(userId)) else carts[k]
  {
    if carts == [] then []
    else
      var first := if carts[0].id == cartId then carts[0].(userId := Some(userId)) else carts[0];
      [first] + Assigned(carts[1..], cartId, userId)
  }

  predicate HasCart(carts: seq<Cart>, cartId: string) {
    exists k :: 0 <= k < |carts| && carts[k].id == cartId
  }

  const RecordNotFound := "Record to update not found."

  /** The outcome of the cart step of `jwt`: the cart table afterwards, and the error that stopped it, if any. */
  datatype Transfer = Transfer(carts: seq<Cart>, error: Option<string>)

  /**
   * On sign-in or sign-up with a `sessionCartId` cookie that names a cart:
   * delete every cart of the user, then give the session cart to the user.
   */
  function TransferSessionCart(carts: seq<Cart>, userId: string, cookie: Option<string>): (t: Transfer)
    ensures cookie.None? || cookie == Some("") ==> t == Transfer(carts, None)
    ensures cookie.Some? && FindSessionCart(carts, cookie.value).None? ==> t == Transfer(carts, None)
  {
    match cookie
    case None => Transfer(carts, None)
    case Some(sid) =>
      if sid == "" then Transfer(carts, None)
      else
        match FindSessionCart(carts, sid)
        case None => Transfer(carts, None)
        case Some(sessionCart) =>
          var remaining := WithoutOwner(carts, userId);
          if HasCart(remaining, sessionCart.id) then Transfer(Assigned(remaining, sessionCart.id, userId), None)
          else Transfer(remaining, Some(RecordNotFound))
  }

  /**
   * When the session cart belonged to someone else (or no one), the user ends
   * up owning exactly the carts with the session cart's id, every cart of
   * another owner is kept, and the user's earlier carts are gone.
   */
  lemma TransferGivesSessionCart(carts: seq<Cart>, userId: string, sid: string)
    requires sid != ""
    requires FindSessionCart(carts, sid).Some?
    requires FindSessionCart(carts, sid).value.userId != Some(userId)
    ensures var t := TransferSessionCart(carts, userId, Some(sid));
      var sc := FindSessionCart(carts, sid).value;
      && t.error.None?
      && sc.(userId := Some(userId)) in t.carts
      && (forall c :: c in t.carts && c.userId == Some(userId) ==> c.id == sc.id)
      && (forall c :: c in carts && c.userId != Some(userId) && c.id != sc.id ==> c in t.carts)
  {
    var sc := FindSessionCart(carts, sid).value;
    var remaining := WithoutOwner(carts, userId);
    assert sc in remaining;
    var k :| 0 <= k < |remaining| && remaining[k] == sc;
    assert HasCart(remaining, sc.id);
    var r := Assigned(remaining, sc.id, userId);
    assert r[k] == sc.(userId := Some(userId));
    forall c | c in r && c.userId == Some(userId)
      ensures c.id == sc.id
    {
      var j :| 0 <= j < |r| && r[j] == c;
      assert remaining[j] in remaining;
    }
    forall c | c in carts && c.userId != Some(userId) && c.id != sc.id
      ensures c in r
    {
      assert c in remaining;
      var j :| 0 <= j < |remaining| && remaining[j] == c;
      assert r[j] == c;
    }
  }

  /**
   * The session cart already belonging to the user is removed by the delete
   * step, so the update that follows finds no record: the user is left with no
   * cart at all and the callback fails.
   */
  lemma OwnSessionCartIsLost(carts: seq<Cart>, userId: string, sid: string)
    requires sid != ""
    requires FindSessionCart(carts, sid).Some?
    requires FindSessionCart(carts, sid).value.userId == Some(userId)
    requires forall c :: c in carts && c.id == FindSessionCart(carts, sid).value.id ==> c.userId == Some(userId)
    ensures var t := TransferSessionCart(carts, userId, Some(sid));
      && t.error == Some(RecordNotFound)
      && (forall c :: c in t.carts ==> c.userId != Some(userId))
  {
    var sc := FindSessionCart(carts, sid).value;
    var remaining := WithoutOwner(carts, userId);
    forall k | 0 <= k < |remaining|
      ensures remaining[k].id != sc.id
    {
      assert remaining[k] in remaining;
    }
  }

  // ---------------------------------------------------------------------------
  // The store and the jwt callback

  /** `prisma.user.update({ where: { id }, data: { name } })` on a table that has the record. */
  function Renamed(users: seq<UserRecord>, id: string, name: string): (r: seq<UserRecord>)
    ensures |r| == |users|
    ensures forall k :: 0 <= k < |r| ==> r[k] == if users[k].id == id then users[k].(name := name) else users[k]
  {
    if users == [] then []
    else [if users[0].id == id then users[0].(name := name) else users[0]] + Renamed(users[1..], id, name)
  }

  predicate HasUser(users: seq<UserRecord>, id: string) {
    exists k :: 0 <= k < |users| && users[k].id == id
  }

  datatype Trigger = SignIn | SignUp | Update | NoTrigger

  /** The user `jwt` receives right after signing in. */
  datatype SignedInUser = SignedInUser(id: string, name: string, email: Option<string>, role: string)

  /** The token fields these callbacks read and write. */
  datatype Token = Token(sub: Option<string>, id: Option<string>, role: Option<string>, name: Option<string>)

  const NoName := "NO_NAME"

  /**
   * The `session` argument of `jwt`, the data sent with an update: none, an
   * object without a `user`, or one whose user may carry a name.
   */
  datatype UpdateData = NoSession | NoUser | WithUser(name: Option<string>)

  /** `session?.user.name`, truthy: a non-empty name sent with an update. */
  predicate UpdateName(session: UpdateData) {
    session.WithUser? && session.name.Some? && session.name.value != ""
  }

  /** What reading `name` of a missing object throws. */
  const UserUndefined := "TypeError: Cannot read properties of undefined (reading 'name')"

  /** The token `jwt` returns when no database step fails and reading the update name does not throw. */
  function TokenAfter(token: Token, user: Option<SignedInUser>, trigger: Trigger, session: UpdateData): (t: Token)
    ensures t.sub == token.sub
    ensures user.Some? ==> t.id == Some(user.value.id) && t.role == Some(user.value.role)
    ensures user.None? ==> t.id == token.id && t.role == token.role
    ensures trigger == Update && UpdateName(session) ==> t.name == session.name
    ensures !(trigger == Update && UpdateName(session)) ==>
      t.name == if user.Some? && user.value.name == NoName then Some(DefaultName(user.value.email)) else token.name
  {
    var t1 := match user
      case None => token
      case Some(u) =>
        var t0 := token.(id := Some(u.id), role := Some(u.role));
        if u.name == NoName then t0.(name := Some(DefaultName(u.email))) else t0;
    if UpdateName(session) && trigger == Update then t1.(name := session.name) else t1
  }

  class Store {
    var users: seq<UserRecord>
    var carts: seq<Cart>

    constructor(users: seq<UserRecord>, carts: seq<Cart>)
      ensures this.users == users && this.carts == carts
    {
      this.users := users;
      this.carts := carts;
    }

    /** `user.update`: fails, changing nothing, when no user has that id. */
    method RenameUser(id: string, name: string) returns (ok: bool)
      modifies this
      ensures ok <==> HasUser(old(users), id)
      ensures users == if ok then Renamed(old(users), id, name) else old(users)
      ensures carts == old(carts)
    {
      ok := HasUser(users, id);
      if ok {
        users := Renamed(users, id, name);
      }
    }

    /** `cart.deleteMany({ where: { userId } })` */
    method DeleteCartsOf(userId: string)
      modifies this
      ensures carts == WithoutOwner(old(carts), userId)
      ensures users == old(users)
    {
      carts := WithoutOwner(carts, userId);
    }

    /** `cart.update({ where: { id }, data: { userId } })`: fails, changing nothing, when no cart has that id. */
    method AssignCart(cartId: string, userId: string) returns (ok: bool)
      modifies this
      ensures ok <==> HasCart(old(carts), cartId)
      ensures carts == if ok then Assigned(old(carts), cartId, userId) else old(carts)
      ensures users == old(users)
    {
      ok := HasCart(carts, cartId);
      if ok {
        carts := Assigned(carts, cartId, userId);
      }
    }

    /**
     * The `jwt` callback.  `cookie` is the `sessionCartId` cookie; `session` is
     * the data sent with an update.  A failing database step ends the callback
     * with an error, keeping what was already written; so does a session
     * without a user, whose `user.name` throws after the database steps, on
     * every trigger.
     */
    method Jwt(token: Token, user: Option<SignedInUser>, trigger: Trigger, session: UpdateData,
               cookie: Option<string>)
      returns (r: Result<Token, string>)
      modifies this
      ensures r.Success? ==> r.value == TokenAfter(token, user, trigger, session)
      ensures session.NoUser? ==> r.Failure?
      ensures r.Failure? ==> r.error == RecordNotFound || (r.error == UserUndefined && session.NoUser?)
      ensures user.None? ==> (r.Success? <==> !session.NoUser?) && users == old(users) && carts == old(carts)
      ensures user.Some? && user.value.name == NoName && !HasUser(old(users), user.value.id) ==>
        r.Failure? && users == old(users) && carts == old(carts)
      ensures user.Some? && user.value.name == NoName && HasUser(old(users), user.value.id) ==>
        users == Renamed(old(users), user.value.id, DefaultName(user.value.email))
      ensures user.Some? && user.value.name != NoName ==> users == old(users)
      ensures user.Some? && (user.value.name != NoName || HasUser(old(users), user.value.id)) ==>
        var t := TransferSessionCart(old(carts), user.value.id, cookie);
        && carts == (if trigger == SignIn || trigger == SignUp then t.carts else old(carts))
        && (r.Failure? <==> ((trigger == SignIn || trigger == SignUp) && t.error.Some?) || session.NoUser?)
    {
      var tok := token;
      if user.Some? {
        var u := user.value;
        tok := tok.(id := Some(u.id), role := Some(u.role));
        if u.name == NoName {
          var name := DefaultName(u.email);
          tok := tok.(name := Some(name));
          var renamed := RenameUser(u.id, name);
          if !renamed {
            return Failure(RecordNotFound);
          }
        }
        if trigger == SignIn || trigger == SignUp {
          if cookie.Some? && cookie.value != "" {
            var sessionCart := FindSessionCart(carts, cookie.value);
            if sessionCart.Some? {
              DeleteCartsOf(u.id);
              var moved := AssignCart(sessionCart.value.id, u.id);
              if !moved {
                return Failure(RecordNotFound);
              }
            }
          }
        }
      }
      if session.NoUser? {
        return Failure(UserUndefined);
      }
      if UpdateName(session) && trigger == Update {
        tok := tok.(name := session.name);
      }
      return Success(tok);
    }
  }

  // ---------------------------------------------------------------------------
  // The session callback

  /** The user fields of the session object. */
  datatype SessionUser = SessionUser(id: Option<string>, role: Option<string>, name: Option<string>)

  /** The `user` argument of the session callback, when there is one. */
  datatype AdapterUser = AdapterUser(name: Option<string>)

  /**
   * `session`: copies sub, role and name from the token; on an update the name
   * comes from `user`, which fails when no user was passed.
   */
  function SessionCallback(user: Option<AdapterUser>, trigger: Trigger, token: Token): (r: Result<SessionUser, string>)
    ensures r.Failure? <==> trigger == Update && user.None?
    ensures r.Success? ==> r.value.id == token.sub && r.value.role == token.role
    ensures r.Success? && trigger != Update ==> r.value.name == token.name
    ensures r.Success? && trigger == Update ==> r.value.name == user.value.name
  {
    var s := SessionUser(token.sub, token.role, token.name);
    if trigger == Update then
      match user
      case None => Failure(UserUndefined)
      case Some(u) => Success(s.(name := u.name))
    else Success(s)
  }
}
