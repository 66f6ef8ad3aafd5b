/**
  * The user handlers (`lib/user/index.js`): `create`, `get`, `getLoggedUser`,
  * the four `update*` handlers, `updateUsername`, `changePassword`,
  * `addEmail` and `getEmails`. Most of them first make sure
  * `options.session` is an object; the password hash (SHA-1 in hex) is a
  * function parameter, and the data service's replies are parameters.
  */
module UserHandlers {
  import opened Js
  import Required
  import Replies

  const ServiceBase: string := "http://service.jillix.com/"
  const CreateRequired: seq<string> :=
    ["givenName", "familyName", "username", "email", "password", "verifyPassword"]
  const PasswordRequired: seq<string> := ["oldPassword", "newPassword", "confirmPassword"]

  /** the properties `get` asks the service for */
  const ProfileFields: Value := Arr([Str("http://schema.org/email"), Str("http://schema.org/givenName"),
                                     Str("http://schema.org/familyName"), Str("http://schema.org/address"),
                                     Str("http://schema.org/website"), Str("http://schema.org/worksFor"),
                                     Str("http://schema.org/alternateName")])

  const NameFields: seq<string> := ["givenName", "familyName"]
  const LocationFields: seq<string> := ["address"]
  const WebsiteFields: seq<string> := ["website"]
  const CompanyFields: seq<string> := ["worksFor"]

  const PasswordMismatch: string := "Service-api.user.changePassword: Passwords do not match."
  const UserNotFound: string := "Service-api.user.changePassword: User not found."
  const IncorrectPassword: string := "Service-api.user.changePassword: Incorrect password."

  /* ---------- the session default ---------- */

  /** the options once a falsy `session` is replaced by an empty object */
  function WithSession(props: seq<(string, Value)>): (r: seq<(string, Value)>)
    ensures Truthy(Lookup(r, "session"))
    ensures Truthy(Lookup(props, "session")) ==> Lookup(r, "session") == Lookup(props, "session")
    ensures forall k :: k != "session" ==> Lookup(r, k) == Lookup(props, k)
  {
    Put(props, "session", Or(Lookup(props, "session"), Obj([])))
  }

  /** `options.session.id`, read where the session cannot be nullish */
  function SessionId(props: seq<(string, Value)>): Value {
    Get(Lookup(props, "session"), "id")
  }

  /** Installing the default session never changes the session id: a
    * missing session simply has no id. */
  lemma SessionIdUnchanged(props: seq<(string, Value)>)
    ensures SessionId(WithSession(props)) == SessionId(props)
    ensures !Nullish(Lookup(WithSession(props), "session"))
  {
    var s := Lookup(props, "session");
    if !Truthy(s) {
      assert Lookup(WithSession(props), "session") == Obj([]);
    }
  }

  /** replaces a falsy `session` of the options by an empty object */
  method DefaultSession(options: JsObject)
    modifies options
    ensures options.props == WithSession(old(options.props))
  {
    options.props := Put(options.props, "session", Or(Lookup(options.props, "session"), Obj([])));
  }

  /* ---------- create ---------- */

  /** the one address a new user starts with: primary, not yet active */
  function EmailEntry(email: string): (e: Value)
    ensures Get(e, "value") == Str(email)
    ensures Get(e, "primary") == Bool(true) && Get(e, "active") == Bool(false)
  {
    var entry := [("value", Str(email)), ("primary", Bool(true)), ("active", Bool(false))];
    LookupAt(entry, "primary", 1);
    LookupAt(entry, "active", 2);
    Obj(entry)
  }

  /** the properties of the JSON-LD document `create` sends to `User.create` */
  function UserFields(givenName: string, familyName: string, username: string, email: string,
                      password: string, hash: string -> string): seq<(string, Value)>
  {
    [("@context", Str("http://jillix.net/general.jsonld")),
     ("@id", Str(ServiceBase + username)),
     ("@type", Str("Person")),
     ("givenName", Str(givenName)),
     ("familyName", Str(familyName)),
     ("username", Str(username)),
     ("email", Arr([EmailEntry(email)])),
     ("password", Str(hash(password)))]
  }

  /** the JSON-LD document `create` sends to `User.create`: its `@id` is the
    * service base followed by the username, it holds exactly one address,
    * and the password only as its hash */
  function UserDocument(givenName: string, familyName: string, username: string, email: string,
                        password: string, hash: string -> string): (doc: Value)
    ensures Get(doc, "@id") == Str(ServiceBase + username)
    ensures Get(doc, "email") == Arr([EmailEntry(email)])
    ensures Get(doc, "password") == Str(hash(password))
  {
    var fields := UserFields(givenName, familyName, username, email, password, hash);
    // a differing character tells the keys apart
    assert "@context"[1] == 'c' && "@id"[1] == 'i' && "@type"[1] == 't';
    assert "givenName"[0] == 'g' && "familyName"[0] == 'f' && "username"[0] == 'u';
    assert "email"[0] == 'e' && "password"[0] == 'p';
    LookupAt(fields, "@id", 1);
    LookupAt(fields, "email", 6);
    LookupAt(fields, "password", 7);
    Obj(fields)
  }

  /** The document is a `Person` carrying the names it was given. */
  lemma UserDocumentNames(givenName: string, familyName: string, username: string, email: string,
                          password: string, hash: string -> string)
    ensures var doc := UserDocument(givenName, familyName, username, email, password, hash);
      && Get(doc, "@type") == Str("Person") && Get(doc, "username") == Str(username)
      && Get(doc, "givenName") == Str(givenName) && Get(doc, "familyName") == Str(familyName)
  {
    var fields := UserFields(givenName, familyName, username, email, password, hash);
    assert "@context"[1] == 'c' && "@id"[1] == 'i' && "@type"[1] == 't';
    assert "givenName"[0] == 'g' && "familyName"[0] == 'f' && "username"[0] == 'u';
    LookupAt(fields, "@type", 2);
    LookupAt(fields, "givenName", 3);
    LookupAt(fields, "familyName", 4);
    LookupAt(fields, "username", 5);
  }

  /** `create`: a missing field is reported first, then a password mismatch;
    * only when both checks pass is the document handed to `User.create` */
  method Create(data: JsObject, hash: string -> string) returns (trace: seq<Event>)
    ensures Required.FirstMissing(data.props, CreateRequired).Some? ==>
      trace == [Fail(Required.MissingMessage(Required.FirstMissing(data.props, CreateRequired).value))]
    ensures Required.FirstMissing(data.props, CreateRequired).None? &&
            Lookup(data.props, "password") != Lookup(data.props, "verifyPassword") ==>
      trace == [Fail("Service-api.user.create: Passwords do not match")]
    ensures Required.FirstMissing(data.props, CreateRequired).None? &&
            Lookup(data.props, "password") == Lookup(data.props, "verifyPassword") ==>
      trace == [Forward("User.create", [UserDocument(Text(Lookup(data.props, "givenName")),
                                                     Text(Lookup(data.props, "familyName")),
                                                     Text(Lookup(data.props, "username")),
                                                     Text(Lookup(data.props, "email")),
                                                     Text(Lookup(data.props, "password")), hash)])]
    ensures ServiceOps(trace) != [] <==>
      Required.FirstMissing(data.props, CreateRequired).None? &&
      Lookup(data.props, "password") == Lookup(data.props, "verifyPassword")
  {
    var missing := Required.CheckRequired(data, CreateRequired);
    if missing.Some? {
      return [Fail(missing.value)];
    }
    var p := data.props;
    if Lookup(p, "password") != Lookup(p, "verifyPassword") {
      return [Fail("Service-api.user.create: Passwords do not match")];
    }
    var doc := UserDocument(Text(Lookup(p, "givenName")), Text(Lookup(p, "familyName")),
                            Text(Lookup(p, "username")), Text(Lookup(p, "email")),
                            Text(Lookup(p, "password")), hash);
    trace := [Forward("User.create", [doc])];
  }

  /* ---------- get and getLoggedUser ---------- */

  /** the user name `get` asks for: `data.username`, or when that is falsy
    * and the session has an id, the id's last '/'-segment; `None` when that
    * id is not a string, whose `split` then throws */
  function RequestedUser(given: Value, sessionId: Value): (r: Option<Value>)
    ensures Truthy(given) ==> r == Some(given)
    ensures !Truthy(given) && !Truthy(sessionId) ==> r == Some(given)
    ensures !Truthy(given) && Truthy(sessionId) ==>
      (r.Some? <==> sessionId.Str?) &&
      (sessionId.Str? ==>
         && r.value.Str? && '/' !in r.value.s && |r.value.s| <= |sessionId.s|
         && r.value.s == sessionId.s[|sessionId.s| - |r.value.s|..]
         && (|r.value.s| == |sessionId.s| || sessionId.s[|sessionId.s| - |r.value.s| - 1] == '/'))
  {
    if !Truthy(given) && Truthy(sessionId) then
      if sessionId.Str? then Some(Str(LastSegment(sessionId.s))) else None
    else Some(given)
  }

  /** The session id's last segment is the name of the user it belongs to:
    * a session id `<base>/<name>` leads `get` to `<name>`. */
  lemma RequestedUserFromSession(base: string, name: string)
    requires name != "" && '/' !in name
    ensures RequestedUser(Undefined, Str(base + "/" + name)) == Some(Str(name))
  {
    LastSegmentAfterSlash(base, name);
  }

  /** Installing the default session leaves every other option as it was. */
  lemma SessionKeeps(props: seq<(string, Value)>, key: string)
    requires key != "session"
    ensures Lookup(WithSession(props), key) == Lookup(props, key)
  {
  }

  /** `get`: ask `User.get` for the profile properties of the requested user */
  method GetUser(options: JsObject, data: JsObject) returns (trace: seq<Event>)
    modifies options
    ensures options.props == WithSession(old(options.props))
    ensures var r := RequestedUser(Lookup(old(data.props), "username"), SessionId(old(options.props)));
      && (r.None? ==> trace == [Throw("TypeError")])
      && (r.Some? ==> trace == [Forward("User.get", [r.value, ProfileFields])])
  {
    DefaultSession(options);
    SessionIdUnchanged(old(options.props));
    if data == options {
      SessionKeeps(old(options.props), "username");
    }
    var username := Lookup(data.props, "username");
    var id := Get(Lookup(options.props, "session"), "id");
    trace := AskForUser(username, id);
  }

  /** the user name `get` settles on and the call it makes with it */
  method AskForUser(username: Value, id: Value) returns (trace: seq<Event>)
    ensures var r := RequestedUser(username, id);
      && (r.None? ==> trace == [Throw("TypeError")])
      && (r.Some? ==> trace == [Forward("User.get", [r.value, ProfileFields])])
  {
    var name := username;
    if !Truthy(name) && Truthy(id) {
      if !id.Str? {
        // the session id is not a string and has no `split`
        return [Throw("TypeError")];
      }
      name := Str(LastSegment(id.s));
    }
    trace := [Forward("User.get", [name, ProfileFields])];
  }

  /** the outcome of `getLoggedUser`: not logged in without a truthy session
    * id, else the id's last segment as `username` */
  function LoggedUser(session: Value): (e: Event)
    ensures !Truthy(session) || !Truthy(Get(session, "id")) ==>
      e == Fail("Service-api.user.getLoggedUser: User not logged in")
    ensures Truthy(session) && Get(session, "id").Str? && Get(session, "id").s != "" ==>
      e.Next? && |e.args| == 2 && e.args[0] == Null &&
      e.args[1].Obj? && KeysOf(e.args[1].fields) == ["username"] &&
      Get(e.args[1], "username") == Str(LastSegment(Get(session, "id").s))
    ensures Truthy(session) && Truthy(Get(session, "id")) && !Get(session, "id").Str? ==>
      e == Throw("TypeError")
  {
    if !Truthy(session) || !Truthy(Get(session, "id")) then
      Fail("Service-api.user.getLoggedUser: User not logged in")
    else if !Get(session, "id").Str? then Throw("TypeError")
    else Next([Null, Obj([("username", Str(LastSegment(Get(session, "id").s)))])])
  }

  /** `getLoggedUser` changes nothing and never calls the service */
  method GetLoggedUser(options: JsObject) returns (trace: seq<Event>)
    ensures trace == [LoggedUser(Lookup(options.props, "session"))]
    ensures ServiceOps(trace) == []
  {
    var session := Lookup(options.props, "session");
    if !Truthy(session) || !Truthy(Get(session, "id")) {
      return [Fail("Service-api.user.getLoggedUser: User not logged in")];
    }
    var id := Get(session, "id");
    if !id.Str? {
      return [Throw("TypeError")];
    }
    trace := [Next([Null, Obj([("username", Str(LastSegment(id.s)))])])];
  }

  /* ---------- the update handlers ---------- */

  /** the payload of an update: each field's value, or the empty string when it is falsy */
  function DefaultedPayload(props: seq<(string, Value)>, fields: seq<string>): (r: seq<(string, Value)>)
    ensures KeysOf(r) == fields
  {
    if fields == [] then []
    else [(fields[0], Or(Lookup(props, fields[0]), Str("")))] + DefaultedPayload(props, fields[1..])
  }

  /** The payload has exactly the listed fields: each holds the data's value
    * when that is truthy and the empty string otherwise; any other property
    * is absent. */
  lemma {:induction false} DefaultedPayloadLookup(props: seq<(string, Value)>, fields: seq<string>, key: string)
    ensures key in fields ==>
      Lookup(DefaultedPayload(props, fields), key) == (if Truthy(Lookup(props, key)) then Lookup(props, key) else Str(""))
    ensures key !in fields ==> Lookup(DefaultedPayload(props, fields), key) == Undefined
  {
    if fields != [] && fields[0] != key {
      DefaultedPayloadLookup(props, fields[1..], key);
    }
  }

  /** The payload reads only the listed fields of the data. */
  lemma {:induction false} DefaultedPayloadReadsFields(p: seq<(string, Value)>, q: seq<(string, Value)>, fields: seq<string>)
    requires forall i :: 0 <= i < |fields| ==> Lookup(p, fields[i]) == Lookup(q, fields[i])
    ensures DefaultedPayload(p, fields) == DefaultedPayload(q, fields)
  {
    if fields != [] {
      DefaultedPayloadReadsFields(p, q, fields[1..]);
    }
  }

  /** the field list an update names, as the array it sends */
  function FieldList(fields: seq<string>): (r: Value)
    ensures r.Arr? && |r.items| == |fields|
    ensures forall i :: 0 <= i < |fields| ==> r.items[i] == Str(fields[i])
  {
    Arr(seq(|fields|, i requires 0 <= i < |fields| => Str(fields[i])))
  }

  /** the call an update handler makes: `User.update` with the field list, the session's id, the payload and `next` */
  function UpdateCall(options: seq<(string, Value)>, data: seq<(string, Value)>, fields: seq<string>): Event {
    Forward("User.update", [FieldList(fields), SessionId(options), Obj(DefaultedPayload(data, fields))])
  }

  /** the shared body of `updateName`, `updateLocation`, `updateWebsite` and
    * `updateCompany` */
  method UpdateProfile(options: JsObject, data: JsObject, fields: seq<string>) returns (trace: seq<Event>)
    requires "session" !in fields
    modifies options
    ensures options.props == WithSession(old(options.props))
    ensures trace == [UpdateCall(old(options.props), old(data.props), fields)]
  {
    DefaultSession(options);
    SessionIdUnchanged(old(options.props));
    DefaultedPayloadReadsFields(data.props, old(data.props), fields);
    var payload := Obj(DefaultedPayload(data.props, fields));
    trace := [Forward("User.update", [FieldList(fields), Get(Lookup(options.props, "session"), "id"), payload])];
  }

  /** `updateName`: `givenName` and `familyName`, each defaulting to '' */
  method UpdateName(options: JsObject, data: JsObject) returns (trace: seq<Event>)
    modifies options
    ensures options.props == WithSession(old(options.props))
    ensures trace == [UpdateCall(old(options.props), old(data.props), NameFields)]
  {
    trace := UpdateProfile(options, data, NameFields);
  }

  /** `updateLocation`: `address`, defaulting to '' */
  method UpdateLocation(options: JsObject, data: JsObject) returns (trace: seq<Event>)
    modifies options
    ensures options.props == WithSession(old(options.props))
    ensures trace == [UpdateCall(old(options.props), old(data.props), LocationFields)]
  {
    trace := UpdateProfile(options, data, LocationFields);
  }

  /** `updateWebsite`: `website`, defaulting to '' */
  method UpdateWebsite(options: JsObject, data: JsObject) returns (trace: seq<Event>)
    modifies options
    ensures options.props == WithSession(old(options.props))
    ensures trace == [UpdateCall(old(options.props), old(data.props), WebsiteFields)]
  {
    trace := UpdateProfile(options, data, WebsiteFields);
  }

  /** `updateCompany`: `worksFor`, defaulting to '' */
  method UpdateCompany(options: JsObject, data: JsObject) returns (trace: seq<Event>)
    modifies options
    ensures options.props == WithSession(old(options.props))
    ensures trace == [UpdateCall(old(options.props), old(data.props), CompanyFields)]
  {
    trace := UpdateProfile(options, data, CompanyFields);
  }

  /** `updateUsername` returns its error before the update it builds is sent */
  method UpdateUsername(options: JsObject) returns (trace: seq<Event>)
    modifies options
    ensures options.props == WithSession(old(options.props))
    ensures trace == [Fail("Service-api.user.changeUsername: Not implemented yet.")]
  {
    DefaultSession(options);
    trace := [Fail("Service-api.user.changeUsername: Not implemented yet.")];
  }

  /* ---------- changePassword ---------- */

  /** the checks `changePassword` passes before it asks for the stored
    * password: all three fields present and the new password confirmed */
  predicate PasswordRequestValid(props: seq<(string, Value)>) {
    Required.FirstMissing(props, PasswordRequired).None? &&
    Lookup(props, "newPassword") == Lookup(props, "confirmPassword")
  }

  /** the stored password has been fetched and is about to be compared */
  predicate ReachesComparison(props: seq<(string, Value)>, sessionId: Value, fetched: Reply) {
    PasswordRequestValid(props) && sessionId.Str? && !Truthy(fetched.err) && Replies.HasDocument(fetched)
  }

  /** the old password, hashed, matches the stored one */
  predicate PasswordMatches(props: seq<(string, Value)>, fetched: Reply, hash: string -> string) {
    Str(hash(Text(Lookup(props, "oldPassword")))) == Get(Get(fetched.res, "jsonld"), "password")
  }

  /** what `changePassword` does, given the data, the session id and the
    * reply to the password lookup; a lookup error goes to `next` */
  function ChangePasswordEvents(props: seq<(string, Value)>, sessionId: Value, fetched: Reply,
                                hash: string -> string): seq<Event>
  {
    PasswordEvents(Required.FirstMissing(props, PasswordRequired), Lookup(props, "oldPassword"),
                   Lookup(props, "newPassword"), Lookup(props, "confirmPassword"), sessionId, fetched, hash)
  }

  /** the same, on the values `changePassword` reads from the data: the
    * outcome of the required-field check and the three passwords */
  function PasswordEvents(missing: Option<string>, oldPassword: Value, newPassword: Value, confirmPassword: Value,
                          sessionId: Value, fetched: Reply, hash: string -> string): seq<Event>
  {
    if missing.Some? then [Fail(Required.MissingMessage(missing.value))]
    else if newPassword != confirmPassword then [Fail(PasswordMismatch)]
    else if !sessionId.Str? then [Throw("TypeError")]
    else
      [Call("User.get", [Str(LastSegment(sessionId.s)), Arr([Str("https://w3id.org/security#password")])])] +
      if Truthy(fetched.err) then [Next([fetched.err])]
      else if !Replies.HasDocument(fetched) then [Fail(UserNotFound)]
      else if Str(hash(Text(oldPassword))) != Get(Get(fetched.res, "jsonld"), "password") then [Fail(IncorrectPassword)]
      else [Forward("User.update", [Arr([Str("password")]), sessionId,
                                    Obj([("password", Str(hash(Text(newPassword))))])])]
  }

  /** the same, as the source is written: the lookup error is handed to
    * `callback`, which is not bound anywhere, so a ReferenceError escapes
    * and `next` is never called */
  function ChangePasswordEventsAsWritten(props: seq<(string, Value)>, sessionId: Value, fetched: Reply,
                                         hash: string -> string): (trace: seq<Event>)
  {
    var t := ChangePasswordEvents(props, sessionId, fetched, hash);
    if PasswordRequestValid(props) && sessionId.Str? && Truthy(fetched.err)
    then t[..|t| - 1] + [Throw("ReferenceError")]
    else t
  }

  /** With the source as written, a failed password lookup never reaches
    * `next`: the caller's callback is lost, while the intended handling
    * relays the error. */
  lemma LookupErrorIsLost(props: seq<(string, Value)>, id: string, err: Value, hash: string -> string)
    requires PasswordRequestValid(props) && Truthy(err)
    ensures var t := ChangePasswordEventsAsWritten(props, Str(id), Reply(err, Undefined), hash);
      |t| == 2 && t[1] == Throw("ReferenceError") && forall i :: 0 <= i < |t| ==> !t[i].Next?
    ensures var t := ChangePasswordEvents(props, Str(id), Reply(err, Undefined), hash);
      |t| == 2 && t[1] == Next([err])
  {
  }

  /** The password is updated only when every check passes and the hash of
    * the old password equals the stored one; the update stores the hash of
    * the new password. */
  lemma {:induction false} UpdateOnlyWithCorrectPassword(props: seq<(string, Value)>, sessionId: Value,
                                                          fetched: Reply, hash: string -> string)
    ensures var t := ChangePasswordEvents(props, sessionId, fetched, hash);
      ("User.update" in ServiceOps(t)) <==>
        ReachesComparison(props, sessionId, fetched) && PasswordMatches(props, fetched, hash)
    ensures var t := ChangePasswordEvents(props, sessionId, fetched, hash);
      ReachesComparison(props, sessionId, fetched) && !PasswordMatches(props, fetched, hash) ==>
        t[|t| - 1] == Fail(IncorrectPassword)
  {
    var t := ChangePasswordEvents(props, sessionId, fetched, hash);
    if PasswordRequestValid(props) && sessionId.Str? {
      var rest := t[1..];
      assert t == [t[0]] + rest;
      assert ServiceOps(t) == [t[0].op] + ServiceOps(rest);
      assert |rest| == 1;
      assert ServiceOps(rest) == (if rest[0].Call? || rest[0].Forward? then [rest[0].op] else []) + ServiceOps([]);
    } else {
      assert |t| == 1 && (t[0].Next? || t[0].Throw?);
    }
  }

  /** A missing field is reported before a mismatch, and neither reaches the
    * service; the stored password is looked up only after both checks. */
  lemma ChecksComeFirst(props: seq<(string, Value)>, sessionId: Value, fetched: Reply, hash: string -> string)
    ensures var t := ChangePasswordEvents(props, sessionId, fetched, hash);
      ServiceOps(t) != [] ==> PasswordRequestValid(props) && t[0].Call? && t[0].op == "User.get"
    ensures Required.FirstMissing(props, PasswordRequired).Some? ==>
      ChangePasswordEvents(props, sessionId, fetched, hash) ==
        [Fail(Required.MissingMessage(Required.FirstMissing(props, PasswordRequired).value))]
  {
    var t := ChangePasswordEvents(props, sessionId, fetched, hash);
    if !(PasswordRequestValid(props) && sessionId.Str?) {
      assert |t| == 1 && (t[0].Next? || t[0].Throw?);
    }
  }

  /** the data after `changePassword`: `data.oldPassword` is overwritten
    * with its hash once the stored password has been fetched */
  function DataAfterChange(props: seq<(string, Value)>, sessionId: Value, fetched: Reply,
                           hash: string -> string): seq<(string, Value)>
  {
    if ReachesComparison(props, sessionId, fetched)
    then Put(props, "oldPassword", Str(hash(Text(Lookup(props, "oldPassword")))))
    else props
  }

  /** Only the three password fields of the data matter to `changePassword`. */
  lemma {:induction false} ChangePasswordReadsFields(p: seq<(string, Value)>, q: seq<(string, Value)>,
                                                     sessionId: Value, fetched: Reply, hash: string -> string)
    requires Lookup(p, "oldPassword") == Lookup(q, "oldPassword")
    requires Lookup(p, "newPassword") == Lookup(q, "newPassword")
    requires Lookup(p, "confirmPassword") == Lookup(q, "confirmPassword")
    ensures ChangePasswordEvents(p, sessionId, fetched, hash) == ChangePasswordEvents(q, sessionId, fetched, hash)
    ensures ReachesComparison(p, sessionId, fetched) == ReachesComparison(q, sessionId, fetched)
  {
    assert forall i :: 0 <= i < |PasswordRequired| ==> Lookup(p, PasswordRequired[i]) == Lookup(q, PasswordRequired[i]);
    Required.FirstMissingReadsFields(p, q, PasswordRequired);
  }

  /** `changePassword`: default the session, then check and change */
  method ChangePassword(options: JsObject, data: JsObject, fetched: Reply, hash: string -> string)
    returns (trace: seq<Event>)
    modifies options, data
    ensures trace == ChangePasswordEvents(old(data.props), SessionId(old(options.props)), fetched, hash)
    ensures data != options ==>
      && options.props == WithSession(old(options.props))
      && data.props == DataAfterChange(old(data.props), SessionId(old(options.props)), fetched, hash)
    ensures data == options ==>
      data.props == DataAfterChange(WithSession(old(data.props)), SessionId(old(options.props)), fetched, hash)
  {
    DefaultSession(options);
    SessionIdUnchanged(old(options.props));
    if data == options {
      SessionKeeps(old(options.props), "oldPassword");
      SessionKeeps(old(options.props), "newPassword");
      SessionKeeps(old(options.props), "confirmPassword");
    }
    ChangePasswordReadsFields(data.props, old(data.props), SessionId(old(options.props)), fetched, hash);
    trace := CheckAndChange(data, Get(Lookup(options.props, "session"), "id"), fetched, hash);
  }

  /** the callback `_checkRequired` is given in `changePassword`, with the
    * session id it reads */
  method CheckAndChange(data: JsObject, sessionId: Value, fetched: Reply, hash: string -> string)
    returns (trace: seq<Event>)
    modifies data
    ensures trace == ChangePasswordEvents(old(data.props), sessionId, fetched, hash)
    ensures data.props == DataAfterChange(old(data.props), sessionId, fetched, hash)
  {
    var missing := Required.CheckRequired(data, PasswordRequired);
    if missing.Some? {
      return [Fail(missing.value)];
    }
    if Lookup(data.props, "newPassword") != Lookup(data.props, "confirmPassword") {
      return [Fail(PasswordMismatch)];
    }
    if !sessionId.Str? {
      // `options.session.id.split` is not a function
      return [Throw("TypeError")];
    }
    trace := [Call("User.get", [Str(LastSegment(sessionId.s)), Arr([Str("https://w3id.org/security#password")])])];
    if Truthy(fetched.err) {
      return trace + [Next([fetched.err])];
    }
    if !Truthy(fetched.res) || !Truthy(Get(fetched.res, "jsonld")) {
      return trace + [Fail(UserNotFound)];
    }
    var newPassword := Lookup(data.props, "newPassword");
    var hashed := Str(hash(Text(Lookup(data.props, "oldPassword"))));
    data.props := Put(data.props, "oldPassword", hashed);
    if hashed != Get(Get(fetched.res, "jsonld"), "password") {
      return trace + [Fail(IncorrectPassword)];
    }
    var update := Obj([("password", Str(hash(Text(newPassword))))]);
    trace := trace + [Forward("User.update", [Arr([Str("password")]), sessionId, update])];
  }

  /* ---------- addEmail and getEmails ---------- */

  /** `addEmail`: relay the service's error, or report the new address as
    * neither active nor primary */
  method AddEmail(options: JsObject, data: JsObject, added: Reply) returns (trace: seq<Event>)
    modifies options
    ensures options.props == WithSession(old(options.props))
    ensures |trace| == 2
    ensures trace[0] == Call("User.addEmail", [Lookup(old(data.props), "email"), SessionId(old(options.props))])
    ensures Truthy(added.err) ==> trace[1] == Next([added.err])
    ensures !Truthy(added.err) ==>
      && trace[1].Next? && |trace[1].args| == 2 && trace[1].args[0] == Null
      && Get(trace[1].args[1], "value") == Lookup(old(data.props), "email")
      && Get(trace[1].args[1], "active") == Bool(false) && Get(trace[1].args[1], "primary") == Bool(false)
  {
    DefaultSession(options);
    SessionIdUnchanged(old(options.props));
    if data == options {
      SessionKeeps(old(options.props), "email");
    }
    var email := Lookup(data.props, "email");
    trace := [Call("User.addEmail", [email, Get(Lookup(options.props, "session"), "id")])];
    var answer := AddedEmail(email, added);
    trace := trace + [answer];
  }

  /** what `addEmail` hands to `next` once the service has answered */
  function AddedEmail(email: Value, added: Reply): (e: Event)
    ensures Truthy(added.err) ==> e == Next([added.err])
    ensures !Truthy(added.err) ==>
      && e.Next? && |e.args| == 2 && e.args[0] == Null
      && e.args[1].Obj? && KeysOf(e.args[1].fields) == ["value", "active", "primary"]
      && Get(e.args[1], "value") == email
      && Get(e.args[1], "active") == Bool(false) && Get(e.args[1], "primary") == Bool(false)
  {
    var fields := [("value", email), ("active", Bool(false)), ("primary", Bool(false))];
    LookupAt(fields, "active", 1);
    LookupAt(fields, "primary", 2);
    if Truthy(added.err) then Next([added.err]) else Next([Null, Obj(fields)])
  }

  /** the reply handling of `getEmails`: relay the error, report an empty or
    * missing list, else every address and then `next(null, null)` */
  predicate EmailsOutcome(reply: Reply, events: seq<Event>) {
    var emails := Get(reply.res, "emails");
    && (Truthy(reply.err) ==> events == [Next([reply.err])])
    && (!Truthy(reply.err) && (!Truthy(reply.res) || !Truthy(emails) || !Truthy(LengthOf(emails))) ==>
          events == [Fail("No email found.")])
    && (!Truthy(reply.err) && Truthy(reply.res) && Truthy(emails) && Truthy(LengthOf(emails)) ==>
          events == if emails.Arr? then GraphEvents(emails.items) else [Throw("TypeError")])
  }

  /** `getEmails`: the user is `data.userId`, else the session's id; with
    * neither there is nothing to ask for */
  method GetEmails(options: JsObject, data: JsObject, reply: Reply) returns (trace: seq<Event>)
    modifies options
    ensures options.props == WithSession(old(options.props))
    ensures var userId := Lookup(old(data.props), "userId");
            var id := SessionId(old(options.props));
      && (!Truthy(userId) && !Truthy(id) ==> trace == [Fail("Service-api.user.getEmails: User id not provided.")])
      && (Truthy(userId) || Truthy(id) ==>
            |trace| >= 2 && trace[0] == Call("User.getEmails", [Or(userId, id)]) &&
            EmailsOutcome(reply, trace[1..]))
  {
    DefaultSession(options);
    SessionIdUnchanged(old(options.props));
    var userId := Lookup(data.props, "userId");
    var id := Get(Lookup(options.props, "session"), "id");
    if !Truthy(userId) && !Truthy(id) {
      return [Fail("Service-api.user.getEmails: User id not provided.")];
    }
    trace := [Call("User.getEmails", [Or(userId, id)])];
    var events;
    if Truthy(reply.err) {
      events := [Next([reply.err])];
    } else if !Truthy(reply.res) || !Truthy(Get(reply.res, "emails")) || !Truthy(LengthOf(Get(reply.res, "emails"))) {
      events := [Fail("No email found.")];
    } else if Get(reply.res, "emails").Arr? {
      events := EmitGraph(Get(reply.res, "emails").items);
    } else {
      // a string or an object with a `length` has no `forEach`
      events := [Throw("TypeError")];
    }
    trace := trace + events;
    assert trace[1..] == events;
  }

  /** Every address of a non-empty list is emitted, in order, and the list
    * is closed by `next(null, null)`. */
  lemma EmailsAllEmitted(reply: Reply, events: seq<Event>)
    requires EmailsOutcome(reply, events)
    requires !Truthy(reply.err) && Get(reply.res, "emails").Arr? && Get(reply.res, "emails").items != []
    ensures var items := Get(reply.res, "emails").items;
      |events| == |items| + 1 && events[|items|] == Next([Null, Null]) &&
      forall i :: 0 <= i < |items| ==> events[i] == Next([items[i], Bool(true)])
  {
  }
}
