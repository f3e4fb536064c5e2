/**
 * Sign-up, sign-in and sign-out (backend/controller/auth.controller.js).
 *
 * The `users` table is a sequence of rows held by class `UserStore`, with the serial `id`
 * as a counter; `req.session` is an object of class `Session`. bcrypt is modelled as a
 * digest value that remembers the salt and the secret it was made from, so `compare`
 * succeeds exactly for the hashed password; the salt is a parameter of `signup`.
 */
module AuthController {
  import opened Wrappers
  import opened JsValues

  /** A bcrypt hash made with `bcrypt.hash(secret, cost)`. */
  datatype Digest = Bcrypt(cost: nat, salt: string, secret: string)

  /** `bcrypt.hash(password, 10)`. */
  function HashPassword(password: string, salt: string): (d: Digest)
    ensures d.cost == 10
  {
    Bcrypt(10, salt, password)
  }

  /** `bcrypt.compare(password, digest)`. */
  predicate Compare(password: string, digest: Digest) {
    password == digest.secret
  }

  /** A stored digest accepts its own password and no other, whatever the salt. */
  lemma CompareAcceptsOnlyThePassword(password: string, attempt: string, salt: string)
    ensures Compare(attempt, HashPassword(password, salt)) <==> attempt == password
  {
  }

  /** A `users` row; columns written from request fields are `None` when the field was absent. */
  datatype User = User(id: nat, username: Option<string>, mail: Option<string>, phone: Option<string>,
                       password: Digest, role: Option<string>)

  /** What the handler sends. `NoReply` is a thrown error the catch only logs: no response is sent. */
  datatype AuthReply = NoReply | Text(text: string) | Message(message: string) | LoggedIn(message: string, userId: nat)

  /** `WHERE mail = $1`: a NULL mail column matches nothing. */
  predicate MailMatches(user: User, mail: JsVal) {
    user.mail.Some? && SqlEquals(user.mail.value, mail)
  }

  /** `result.rows[0]` of `SELECT * FROM users WHERE mail = $1`. */
  function FindByMail(users: seq<User>, mail: JsVal): (r: Option<nat>)
    ensures r.Some? ==> r.value < |users| && MailMatches(users[r.value], mail)
    ensures r.Some? ==> forall j :: 0 <= j < r.value ==> !MailMatches(users[j], mail)
    ensures r.None? ==> forall j :: 0 <= j < |users| ==> !MailMatches(users[j], mail)
  {
    if users == [] then None
    else if MailMatches(users[0], mail) then Some(0)
    else match FindByMail(users[1..], mail)
      case None => None
      case Some(k) => Some(k + 1)
  }

  /** No two users share a (non-NULL) mail address. */
  predicate MailsUnique(users: seq<User>) {
    forall j, k :: 0 <= j < k < |users| && users[j].mail.Some? ==> users[j].mail != users[k].mail
  }

  /** Appending a user whose mail no one has keeps mails unique. */
  lemma {:induction false} SignupKeepsMailsUnique(users: seq<User>, added: User, mail: JsVal)
    requires MailsUnique(users)
    requires FindByMail(users, mail).None? && added.mail == SqlText(mail)
    ensures MailsUnique(users + [added])
  {
    var all := users + [added];
    forall j, k | 0 <= j < k < |all| && all[j].mail.Some?
      ensures all[j].mail != all[k].mail
    {
      if k == |users| {
        assert !MailMatches(users[j], mail);
      }
    }
  }

  /** A session of express-session; `live` is false once destroyed. */
  class Session {
    var userId: Option<nat>
    var live: bool

    constructor ()
      ensures userId == None && live
    {
      userId := None;
      live := true;
    }
  }

  class UserStore {
    var users: seq<User>
    /** The next value of the `users.id` sequence. */
    var nextId: nat

    ghost predicate Valid()
      reads this
    {
      (forall k :: 0 <= k < |users| ==> users[k].id < nextId) &&
      (forall j, k :: 0 <= j < k < |users| ==> users[j].id != users[k].id) &&
      MailsUnique(users)
    }

    constructor ()
      ensures Valid() && users == [] && nextId == 1
    {
      users := [];
      nextId := 1;
    }

    /** `signup`. */
    method Signup(username: JsVal, mail: JsVal, phone: JsVal, password: JsVal, role: JsVal, salt: string, session: Session)
      returns (reply: AuthReply)
      requires Valid()
      modifies this, session
      ensures Valid()
      ensures session.live == old(session.live)
      ensures FindByMail(old(users), mail).Some? ==>
        reply == Message("User already exists") && users == old(users) && nextId == old(nextId) &&
        session.userId == old(session.userId)
      ensures FindByMail(old(users), mail).None? && !password.Str? ==>
        reply == NoReply && users == old(users) && nextId == old(nextId) && session.userId == old(session.userId)
      ensures FindByMail(old(users), mail).None? && password.Str? ==>
        users == old(users) + [User(old(nextId), SqlText(username), SqlText(mail), SqlText(phone),
                                    HashPassword(password.s, salt), SqlText(role))] &&
        nextId == old(nextId) + 1 && session.userId == Some(old(nextId)) &&
        reply == LoggedIn("User registered and logged in successfully", old(nextId))
    {
      var existing := FindByMail(users, mail);
      if existing.Some? {
        return Message("User already exists");
      }
      if !password.Str? {
        return NoReply;
      }
      var hashed := HashPassword(password.s, salt);
      var user := User(nextId, SqlText(username), SqlText(mail), SqlText(phone), hashed, SqlText(role));
      SignupKeepsMailsUnique(users, user, mail);
      users := users + [user];
      nextId := nextId + 1;
      session.userId := Some(user.id);
      reply := LoggedIn("User registered and logged in successfully", user.id);
    }

    /** `signin`. */
    method Signin(mail: JsVal, password: JsVal, session: Session) returns (reply: AuthReply)
      requires Valid()
      modifies session
      ensures session.live == old(session.live)
      ensures FindByMail(users, mail).None? ==> reply == Text("User does not exist") && session.userId == old(session.userId)
      ensures FindByMail(users, mail).Some? && !password.Str? ==> reply == NoReply && session.userId == old(session.userId)
      ensures FindByMail(users, mail).Some? && password.Str? ==>
        var user := users[FindByMail(users, mail).value];
        if Compare(password.s, user.password)
        then session.userId == Some(user.id) && reply == LoggedIn("Login successful", user.id)
        else session.userId == old(session.userId) && reply == Message("Invalid password")
    {
      var found := FindByMail(users, mail);
      if found.None? {
        return Text("User does not exist");
      }
      var user := users[found.value];
      if !password.Str? {
        return NoReply;
      }
      if !Compare(password.s, user.password) {
        return Message("Invalid password");
      }
      session.userId := Some(user.id);
      reply := LoggedIn("Login successful", user.id);
    }
  }

  /** After a sign-up with a (non-NULL) mail, a sign-in with that mail finds the new user, so
      it succeeds with the signed-up password and with no other. */
  lemma {:induction false} SigninFindsSignedUpUser(users: seq<User>, added: User, mail: JsVal)
    requires FindByMail(users, mail).None? && added.mail == SqlText(mail) && SqlText(mail).Some?
    ensures FindByMail(users + [added], mail) == Some(|users|)
  {
    if users == [] {
      assert MailMatches(added, mail);
    } else {
      assert (users + [added])[1..] == users[1..] + [added];
      SigninFindsSignedUpUser(users[1..], added, mail);
    }
  }

  /** `signout`: on success the session is destroyed and its cookie cleared; when destroying
      fails the session is left as it was. */
  method Signout(session: Session, destroyFails: bool) returns (reply: AuthReply, cookieCleared: bool)
    modifies session
    ensures destroyFails ==> reply == Text("Logout failed") && !cookieCleared && session.live == old(session.live) &&
                              session.userId == old(session.userId)
    ensures !destroyFails ==> reply == Text("Logged out successfully") && cookieCleared && !session.live &&
                               session.userId == None
  {
    if destroyFails {
      return Text("Logout failed"), false;
    }
    session.live := false;
    session.userId := None;
    reply, cookieCleared := Text("Logged out successfully"), true;
  }
}
