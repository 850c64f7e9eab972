/** Registration and login (backend/routes/authRoutes.js) over the user
    collection, taken as a table keyed by the exact e-mail string. bcrypt is
    not modelled: `Crypto` stands for its hash (salted, with a cost factor)
    and compare; `Keys` stands for jwt.sign. */
module AuthRoutes {
  import opened Js
  import opened AuthGate

  /** A stored user; `password` holds the bcrypt hash. */
  datatype User = User(id: UserId, name: string, email: string, password: string)

  /** The only user fields a response carries. */
  datatype PublicUser = PublicUser(id: UserId, name: string, email: string)

  datatype ReplyBody = Message(text: string) | Session(token: string, user: PublicUser)

  datatype Reply = Reply(status: int, body: ReplyBody)

  /** bcrypt.hash(password, rounds) with a random salt, and bcrypt.compare. */
  datatype Crypto = Crypto(hash: (string, nat, nat) -> string, compare: (string, string) -> bool)

  /** The bcrypt cost factor the server uses. */
  const SaltRounds: nat := 10

  const FieldsRequiredMessage := "All Fields Are Required."
  const EmailTakenMessage := "Email Is Already Registered."
  const CredentialsRequiredMessage := "Email And Password are Required."
  const UnknownEmailMessage := "Invalid Email or password."
  const WrongPasswordMessage := "Invalid email or Password"

  /** A request-body field that is present and truthy (a non-empty string). */
  predicate Present(field: Option<string>)
  {
    field.Some? && field.value != ""
  }

  function Public(u: User): (p: PublicUser)
    ensures p.id == u.id && p.name == u.name && p.email == u.email
  {
    PublicUser(u.id, u.name, u.email)
  }

  /** The stored password hash never reaches a response: two users have the
      same public view exactly when they differ at most in their hash. */
  lemma PublicHidesPassword(u1: User, u2: User)
    ensures Public(u1) == Public(u2) <==> u1.(password := u2.password) == u2
  {
  }

  /** The token signed over the user id, issued at clock `nowMs` and valid
      for seven days. With sound keys it decodes to exactly those claims. */
  function IssueToken(keys: Keys, id: UserId, nowMs: nat): (token: string)
    ensures SoundKeys(keys) ==>
              && token != "" && ' ' !in token
              && keys.decode(token) == Some(Claims(id, Seconds(nowMs), Seconds(nowMs) + TokenLifetime))
  {
    keys.sign(Claims(id, Seconds(nowMs), Seconds(nowMs) + TokenLifetime))
  }

  /** A token issued at `issuedMs` admits its user at `nowMs` exactly while
      fewer than seven days (in whole JWT seconds) have passed. */
  lemma {:induction false} IssuedTokenAdmits(keys: Keys, id: UserId, issuedMs: nat, nowMs: nat)
    requires SoundKeys(keys)
    ensures Gate(keys, AuthHeader(Some(IssueToken(keys, id, issuedMs))), nowMs)
         == if Seconds(nowMs) < Seconds(issuedMs) + TokenLifetime then Admitted(id)
            else Denied(401, InvalidTokenMessage)
  {
    GateOnClientHeader(keys, Some(IssueToken(keys, id, issuedMs)), nowMs);
  }

  /** A token issued at T no longer admits anyone at T plus eight days. */
  lemma ExpiredAfterEightDays(keys: Keys, id: UserId, issuedMs: nat)
    requires SoundKeys(keys)
    ensures Gate(keys, AuthHeader(Some(IssueToken(keys, id, issuedMs))), issuedMs + 8 * SecondsPerDay * 1000)
         == Denied(401, InvalidTokenMessage)
  {
    IssuedTokenAdmits(keys, id, issuedMs, issuedMs + 8 * SecondsPerDay * 1000);
  }

  /** The two login failures are both 400 without a token, but their texts
      differ: in the case of two letters and in a trailing full stop. */
  lemma LoginFailureMessages()
    ensures UnknownEmailMessage != WrongPasswordMessage
    ensures ToLower(UnknownEmailMessage) == ToLower(WrongPasswordMessage) + "."
  {
    var a, b := UnknownEmailMessage, WrongPasswordMessage;
    var la, lb := ToLower(a), ToLower(b) + ".";
    assert a[8] != b[8];
    forall i | 0 <= i < |a| ensures la[i] == lb[i] {
      if i < |b| {
        assert a[i] == b[i] || (a[i] == 'E' && b[i] == 'e') || (a[i] == 'p' && b[i] == 'P');
      }
    }
  }

  /** The user collection. */
  class UserStore {
    var users: map<string, User>
    var nextId: UserId
    const keys: Keys
    const crypto: Crypto

    /** Each user is filed under its own e-mail; ids are below `nextId` and
        distinct. */
    ghost predicate Valid()
      reads this
    {
      && (forall e :: e in users ==> users[e].email == e && users[e].id < nextId)
      && (forall e1, e2 :: e1 in users && e2 in users && e1 != e2 ==> users[e1].id != users[e2].id)
    }

    constructor (keys: Keys, crypto: Crypto)
      ensures Valid() && users == map[] && nextId == 0
      ensures this.keys == keys && this.crypto == crypto
    {
      users := map[];
      nextId := 0;
      this.keys := keys;
      this.crypto := crypto;
    }

    /** POST /register. `salt` is the random salt bcrypt draws; `nowMs` the
        clock at signing. */
    method Register(name: Option<string>, email: Option<string>, password: Option<string>, salt: nat, nowMs: nat)
      returns (reply: Reply)
      requires Valid()
      modifies this
      ensures Valid()
      ensures !(Present(name) && Present(email) && Present(password)) ==>
                reply == Reply(400, Message(FieldsRequiredMessage)) && users == old(users) && nextId == old(nextId)
      ensures Present(name) && Present(email) && Present(password) && email.value in old(users) ==>
                reply == Reply(400, Message(EmailTakenMessage)) && users == old(users) && nextId == old(nextId)
      ensures Present(name) && Present(email) && Present(password) && email.value !in old(users) ==>
                var u := User(old(nextId), name.value, email.value, crypto.hash(password.value, SaltRounds, salt));
                && users == old(users)[email.value := u]
                && nextId == old(nextId) + 1
                && reply == Reply(201, Session(IssueToken(keys, u.id, nowMs), Public(u)))
    {
      if !Present(name) || !Present(email) || !Present(password) {
        return Reply(400, Message(FieldsRequiredMessage));
      }
      if email.value in users {
        return Reply(400, Message(EmailTakenMessage));
      }
      var hashed := crypto.hash(password.value, SaltRounds, salt);
      var user := User(nextId, name.value, email.value, hashed);
      users := users[email.value := user];
      nextId := nextId + 1;
      var token := IssueToken(keys, user.id, nowMs);
      reply := Reply(201, Session(token, Public(user)));
    }

    /** POST /login. Reads the collection and never changes it. */
    method Login(email: Option<string>, password: Option<string>, nowMs: nat) returns (reply: Reply)
      requires Valid()
      ensures !(Present(email) && Present(password)) ==> reply == Reply(400, Message(CredentialsRequiredMessage))
      ensures Present(email) && Present(password) && email.value !in users ==>
                reply == Reply(400, Message(UnknownEmailMessage))
      ensures Present(email) && Present(password) && email.value in users ==>
                var u := users[email.value];
                && (!crypto.compare(password.value, u.password) ==> reply == Reply(400, Message(WrongPasswordMessage)))
                && (crypto.compare(password.value, u.password) ==>
                      reply == Reply(200, Session(IssueToken(keys, u.id, nowMs), Public(u))))
      ensures reply.body.Session? <==> reply.status == 200
    {
      if !Present(email) || !Present(password) {
        return Reply(400, Message(CredentialsRequiredMessage));
      }
      if email.value !in users {
        return Reply(400, Message(UnknownEmailMessage));
      }
      var user := users[email.value];
      var isMatch := crypto.compare(password.value, user.password);
      if !isMatch {
        return Reply(400, Message(WrongPasswordMessage));
      }
      var token := IssueToken(keys, user.id, nowMs);
      reply := Reply(200, Session(token, Public(user)));
    }
  }
}
