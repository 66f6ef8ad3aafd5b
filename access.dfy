/**
  * The access check in front of the flow handlers (`lib/access.js`, `flow`):
  * settle the API key, the application id and the composition name on
  * `data`, then ask the access cache for the caller's role and, when the
  * cache has none, the key service. Both services are outside the model:
  * the cache's answer and the key service's reply are parameters, and the
  * calls are recorded in the trace.
  */
module Access {
  import opened Js

  const NoKey: string := "Flow-API: Access denied (No API Key found)."
  const NoApp: string := "Flow-API: No AppID found."
  const NoComp: string := "Flow-API: Missing required composition name."

  /** whether settling the key throws: the data and the options have no key
    * and the session the fallback is read from is null or undefined */
  predicate KeyThrows(o: seq<(string, Value)>, d: seq<(string, Value)>) {
    !Truthy(Lookup(d, "key")) && !Truthy(Lookup(o, "key")) && Nullish(Lookup(o, "session"))
  }

  /** the key `flow` settles on: the data's own when truthy, else the
    * options', else the session's */
  function KeyOf(o: seq<(string, Value)>, d: seq<(string, Value)>): Value {
    Or(Or(Lookup(d, "key"), Lookup(o, "key")), Get(Lookup(o, "session"), "key"))
  }

  /** the application id: the data's own when truthy, else the options' */
  function AppOf(o: seq<(string, Value)>, d: seq<(string, Value)>): Value {
    Or(Lookup(d, "app"), Lookup(o, "app"))
  }

  /** the composition name: the data's own when truthy, else the options' */
  function CompOf(o: seq<(string, Value)>, d: seq<(string, Value)>): Value {
    Or(Lookup(d, "comp"), Lookup(o, "comp"))
  }

  /** the data once key, application id and composition name are settled */
  function Settled(o: seq<(string, Value)>, d: seq<(string, Value)>): seq<(string, Value)> {
    Put(Put(Put(d, "key", KeyOf(o, d)), "app", AppOf(o, d)), "comp", CompOf(o, d))
  }

  /** the three checks pass: a key, an application id, and a composition
    * name when the options require one */
  predicate ChecksPass(o: seq<(string, Value)>, d: seq<(string, Value)>) {
    && !KeyThrows(o, d) && Truthy(KeyOf(o, d)) && Truthy(AppOf(o, d))
    && !(Truthy(Lookup(o, "compReq")) && !Truthy(CompOf(o, d)))
  }

  /** What `flow` does, given the options and data it starts from, the
    * role the access cache answers and the key service's reply: the trace
    * and the data it leaves behind. */
  function FlowOutcome(o: seq<(string, Value)>, d: seq<(string, Value)>, cached: Value, looked: Reply)
    : (seq<Event>, seq<(string, Value)>)
  {
    if KeyThrows(o, d) then ([Throw("TypeError")], d)
    else
      var key := KeyOf(o, d);
      var d1 := Put(d, "key", key);
      if !Truthy(key) then ([Fail(NoKey)], d1)
      else
        var app := AppOf(o, d);
        var d2 := Put(d1, "app", app);
        if !Truthy(app) then ([Fail(NoApp)], d2)
        else
          var d3 := Put(d2, "comp", CompOf(o, d));
          if Truthy(Lookup(o, "compReq")) && !Truthy(CompOf(o, d)) then ([Fail(NoComp)], d3)
          else if Nullish(Lookup(o, "session")) then ([Throw("TypeError")], d3)
          else RoleOutcome(key, Get(Lookup(o, "session"), "user"), app, d3, cached, looked)
  }

  /** the role step: record the cache's answer on the data; an error is
    * handed on, a falsy role sends the caller to the key service, any other
    * role is final */
  function RoleOutcome(key: Value, user: Value, app: Value, d3: seq<(string, Value)>, cached: Value, looked: Reply)
    : (seq<Event>, seq<(string, Value)>)
  {
    var ask := Call("Access.cache", [key, user, app]);
    var d4 := Put(d3, "role", cached);
    if cached.Error? then ([ask, Next([cached])], d4)
    else if Truthy(cached) then ([ask, Next([Null, Obj(d4)])], d4)
    else
      var lookup := Call("Access.key", [key, user, app]);
      if Truthy(looked.err) then ([ask, lookup, Next([looked.err])], d4)
      else
        var d5 := Put(d4, "role", looked.res);
        ([ask, lookup, Next([Null, Obj(d5)])], d5)
  }

  /** Setting one property leaves the others as they were. */
  lemma PutKeeps(p: seq<(string, Value)>, key: string, v: Value, other: string)
    requires other != key
    ensures Lookup(Put(p, key, v), other) == Lookup(p, other)
  {
  }

  /** `flow(options, data, next)`: `data` is changed in place; `options` may
    * be the same object, which changes nothing the check reads */
  method Flow(options: JsObject, data: JsObject, cached: Value, looked: Reply) returns (trace: seq<Event>)
    modifies data
    ensures trace == FlowOutcome(old(options.props), old(data.props), cached, looked).0
    ensures data.props == FlowOutcome(old(options.props), old(data.props), cached, looked).1
  {
    ghost var o, d := options.props, data.props;
    if !Truthy(Lookup(data.props, "key")) && !Truthy(Lookup(options.props, "key"))
       && Nullish(Lookup(options.props, "session")) {
      // the session's key is read from null or undefined
      return [Throw("TypeError")];
    }
    var key := Or(Or(Lookup(data.props, "key"), Lookup(options.props, "key")),
                  Get(Lookup(options.props, "session"), "key"));
    data.props := Put(data.props, "key", key);
    if !Truthy(key) {
      return [Fail(NoKey)];
    }
    assert options.props == if options == data then Put(d, "key", key) else o;
    PutKeeps(d, "key", key, "app");
    PutKeeps(d, "key", key, "comp");
    PutKeeps(d, "key", key, "compReq");
    PutKeeps(d, "key", key, "session");
    assert Lookup(options.props, "app") == Lookup(o, "app");
    var app := Or(Lookup(data.props, "app"), Lookup(options.props, "app"));
    data.props := Put(data.props, "app", app);
    if !Truthy(app) {
      return [Fail(NoApp)];
    }
    ghost var d1 := Put(d, "key", key);
    assert options.props == if options == data then Put(d1, "app", app) else o;
    PutKeeps(d1, "app", app, "comp");
    PutKeeps(d1, "app", app, "compReq");
    PutKeeps(d1, "app", app, "session");
    assert Lookup(options.props, "comp") == Lookup(o, "comp");
    var comp := Or(Lookup(data.props, "comp"), Lookup(options.props, "comp"));
    data.props := Put(data.props, "comp", comp);
    ghost var d2 := Put(d1, "app", app);
    assert options.props == if options == data then Put(d2, "comp", comp) else o;
    PutKeeps(d2, "comp", comp, "compReq");
    PutKeeps(d2, "comp", comp, "session");
    assert Lookup(options.props, "compReq") == Lookup(o, "compReq");
    if Truthy(Lookup(options.props, "compReq")) && !Truthy(comp) {
      return [Fail(NoComp)];
    }
    assert Lookup(options.props, "session") == Lookup(o, "session");
    var session := Lookup(options.props, "session");
    if Nullish(session) {
      // the session's user is read from null or undefined
      return [Throw("TypeError")];
    }
    trace := AskRole(data, key, Get(session, "user"), app, cached, looked);
  }

  /** the role step of `flow`, on the settled data */
  method AskRole(data: JsObject, key: Value, user: Value, app: Value, cached: Value, looked: Reply)
    returns (trace: seq<Event>)
    modifies data
    ensures trace == RoleOutcome(key, user, app, old(data.props), cached, looked).0
    ensures data.props == RoleOutcome(key, user, app, old(data.props), cached, looked).1
  {
    var ask := Call("Access.cache", [key, user, app]);
    data.props := Put(data.props, "role", cached);
    if cached.Error? {
      return [ask, Next([cached])];
    }
    if !Truthy(cached) {
      var lookup := Call("Access.key", [key, user, app]);
      if Truthy(looked.err) {
        return [ask, lookup, Next([looked.err])];
      }
      data.props := Put(data.props, "role", looked.res);
      return [ask, lookup, Next([Null, Obj(data.props)])];
    }
    trace := [ask, Next([Null, Obj(data.props)])];
  }

  /** The key the data ends with is the first truthy one of the data's,
    * the options' and the session's. */
  lemma KeyPrecedence(o: seq<(string, Value)>, d: seq<(string, Value)>, cached: Value, looked: Reply)
    requires !KeyThrows(o, d)
    ensures Lookup(FlowOutcome(o, d, cached, looked).1, "key")
         == if Truthy(Lookup(d, "key")) then Lookup(d, "key")
            else if Truthy(Lookup(o, "key")) then Lookup(o, "key")
            else Get(Lookup(o, "session"), "key")
  {
    KeySettled(o, d, cached, looked);
  }

  /** Whatever way `flow` ends, once the key is settled the data keeps it. */
  lemma KeySettled(o: seq<(string, Value)>, d: seq<(string, Value)>, cached: Value, looked: Reply)
    requires !KeyThrows(o, d)
    ensures Lookup(FlowOutcome(o, d, cached, looked).1, "key") == KeyOf(o, d)
  {
    var key := KeyOf(o, d);
    var d1 := Put(d, "key", key);
    var d2 := Put(d1, "app", AppOf(o, d));
    var d3 := Put(d2, "comp", CompOf(o, d));
    if !Truthy(key) {
      assert FlowOutcome(o, d, cached, looked).1 == d1;
    } else if !Truthy(AppOf(o, d)) {
      assert FlowOutcome(o, d, cached, looked).1 == d2;
      PutKeeps(d1, "app", AppOf(o, d), "key");
    } else {
      PutKeeps(d1, "app", AppOf(o, d), "key");
      PutKeeps(d2, "comp", CompOf(o, d), "key");
      if (Truthy(Lookup(o, "compReq")) && !Truthy(CompOf(o, d))) || Nullish(Lookup(o, "session")) {
        assert FlowOutcome(o, d, cached, looked).1 == d3;
      } else {
        var user := Get(Lookup(o, "session"), "user");
        assert FlowOutcome(o, d, cached, looked) == RoleOutcome(key, user, AppOf(o, d), d3, cached, looked);
        RoleKeeps(key, user, AppOf(o, d), d3, cached, looked, "key");
      }
    }
  }

  /** `flow` stops with "No API Key found" exactly when none of the three
    * keys is truthy. */
  lemma NoKeyFails(o: seq<(string, Value)>, d: seq<(string, Value)>, cached: Value, looked: Reply)
    ensures FlowOutcome(o, d, cached, looked).0 == [Fail(NoKey)] <==>
      && !Truthy(Lookup(d, "key")) && !Truthy(Lookup(o, "key"))
      && !Nullish(Lookup(o, "session")) && !Truthy(Get(Lookup(o, "session"), "key"))
  {
    if ChecksPass(o, d) && !Nullish(Lookup(o, "session")) {
      RoleAnswersOnce(KeyOf(o, d), Get(Lookup(o, "session"), "user"), AppOf(o, d), Settled(o, d), cached, looked);
    }
  }

  /** The role step changes no property but `role`. */
  lemma RoleKeeps(key: Value, user: Value, app: Value, d3: seq<(string, Value)>, cached: Value, looked: Reply, other: string)
    requires other != "role"
    ensures Lookup(RoleOutcome(key, user, app, d3, cached, looked).1, other) == Lookup(d3, other)
  {
    PutKeeps(d3, "role", cached, other);
    PutKeeps(Put(d3, "role", cached), "role", looked.res, other);
  }

  /** "No AppID found" is reported exactly when a key was found and neither
    * the data nor the options name an application, so the key is always
    * checked first. */
  lemma AppCheckedAfterKey(o: seq<(string, Value)>, d: seq<(string, Value)>, cached: Value, looked: Reply)
    ensures FlowOutcome(o, d, cached, looked).0 == [Fail(NoApp)] <==>
      !KeyThrows(o, d) && Truthy(KeyOf(o, d)) && !Truthy(AppOf(o, d))
  {
    if ChecksPass(o, d) && !Nullish(Lookup(o, "session")) {
      RoleSelection(o, d, cached, looked);
      RoleAnswersOnce(KeyOf(o, d), Get(Lookup(o, "session"), "user"), AppOf(o, d), Settled(o, d), cached, looked);
    }
  }

  /** A missing composition name is an error only when the options require
    * one, and only once key and application id are found. */
  lemma CompOnlyWhenRequired(o: seq<(string, Value)>, d: seq<(string, Value)>, cached: Value, looked: Reply)
    ensures FlowOutcome(o, d, cached, looked).0 == [Fail(NoComp)] <==>
      && !KeyThrows(o, d) && Truthy(KeyOf(o, d)) && Truthy(AppOf(o, d))
      && Truthy(Lookup(o, "compReq")) && !Truthy(CompOf(o, d))
  {
    if ChecksPass(o, d) && !Nullish(Lookup(o, "session")) {
      RoleSelection(o, d, cached, looked);
      RoleAnswersOnce(KeyOf(o, d), Get(Lookup(o, "session"), "user"), AppOf(o, d), Settled(o, d), cached, looked);
    }
  }

  /** Once the checks pass, what `flow` does is the role step on the
    * settled data, asking with the settled key, the session's user and the
    * settled application id. */
  lemma RoleSelection(o: seq<(string, Value)>, d: seq<(string, Value)>, cached: Value, looked: Reply)
    requires ChecksPass(o, d) && !Nullish(Lookup(o, "session"))
    ensures FlowOutcome(o, d, cached, looked)
         == RoleOutcome(KeyOf(o, d), Get(Lookup(o, "session"), "user"), AppOf(o, d), Settled(o, d), cached, looked)
  {
  }

  /** The cache is asked first. An error from it is handed on unchanged; a
    * truthy role is final and recorded on the data; a falsy one sends the
    * caller to the key service, whose error is handed on and whose role is
    * recorded. */
  lemma RoleChoice(key: Value, user: Value, app: Value, d3: seq<(string, Value)>, cached: Value, looked: Reply)
    ensures var (trace, after) := RoleOutcome(key, user, app, d3, cached, looked);
      && |trace| >= 2
      && trace[0] == Call("Access.cache", [key, user, app])
      && (cached.Error? ==> trace == [trace[0], Next([cached])])
      && (!cached.Error? && Truthy(cached) ==>
            trace == [trace[0], Next([Null, Obj(after)])] && Lookup(after, "role") == cached)
      && (!Truthy(cached) ==>
            && ServiceOps(trace) == ["Access.cache", "Access.key"]
            && trace[1] == Call("Access.key", [key, user, app])
            && (Truthy(looked.err) ==> trace[2] == Next([looked.err]))
            && (!Truthy(looked.err) ==> trace[2] == Next([Null, Obj(after)]) && Lookup(after, "role") == looked.res))
  {
    var ask := Call("Access.cache", [key, user, app]);
    var d4 := Put(d3, "role", cached);
    if cached.Error? {
      assert RoleOutcome(key, user, app, d3, cached, looked) == ([ask, Next([cached])], d4);
    } else if Truthy(cached) {
      assert RoleOutcome(key, user, app, d3, cached, looked) == ([ask, Next([Null, Obj(d4)])], d4);
    } else {
      var lookup := Call("Access.key", [key, user, app]);
      var last := if Truthy(looked.err) then Next([looked.err]) else Next([Null, Obj(Put(d4, "role", looked.res))]);
      var trace := [ask, lookup, last];
      assert RoleOutcome(key, user, app, d3, cached, looked).0 == trace;
      assert trace[1..] == [lookup, last] && trace[1..][1..] == [last] && [last][1..] == [];
      assert ServiceOps([last]) == [];
    }
  }

  /** `flow` leaves every property of the data but `key`, `app`, `comp` and
    * `role` as it was, and once the checks pass the data holds the settled
    * application id and composition name. */
  lemma FlowChangesOnlyItsFields(o: seq<(string, Value)>, d: seq<(string, Value)>, cached: Value, looked: Reply, k: string)
    ensures var after := FlowOutcome(o, d, cached, looked).1;
      && (k != "key" && k != "app" && k != "comp" && k != "role" ==> Lookup(after, k) == Lookup(d, k))
      && (ChecksPass(o, d) ==> Lookup(after, "app") == AppOf(o, d) && Lookup(after, "comp") == CompOf(o, d))
  {
    if !KeyThrows(o, d) {
      var d1 := Put(d, "key", KeyOf(o, d));
      var d2 := Put(d1, "app", AppOf(o, d));
      var d3 := Put(d2, "comp", CompOf(o, d));
      if k != "key" && k != "app" && k != "comp" && k != "role" {
        PutKeeps(d, "key", KeyOf(o, d), k);
        PutKeeps(d1, "app", AppOf(o, d), k);
        PutKeeps(d2, "comp", CompOf(o, d), k);
        RoleKeeps(KeyOf(o, d), Get(Lookup(o, "session"), "user"), AppOf(o, d), d3, cached, looked, k);
      }
      if ChecksPass(o, d) {
        PutKeeps(d2, "comp", CompOf(o, d), "app");
        RoleKeeps(KeyOf(o, d), Get(Lookup(o, "session"), "user"), AppOf(o, d), d3, cached, looked, "app");
        RoleKeeps(KeyOf(o, d), Get(Lookup(o, "session"), "user"), AppOf(o, d), d3, cached, looked, "comp");
      }
    }
  }

  /** `next` is called exactly once, or an exception escapes, and that ends
    * the trace; every event before it is a service call */
  predicate AnswersOnce(trace: seq<Event>) {
    && |trace| >= 1
    && (trace[|trace| - 1].Next? || trace[|trace| - 1].Throw?)
    && forall i :: 0 <= i < |trace| - 1 ==> trace[i].Call?
  }

  /** Every way through `flow` answers once. */
  lemma FlowAnswersOnce(o: seq<(string, Value)>, d: seq<(string, Value)>, cached: Value, looked: Reply)
    ensures AnswersOnce(FlowOutcome(o, d, cached, looked).0)
  {
    if ChecksPass(o, d) && !Nullish(Lookup(o, "session")) {
      RoleSelection(o, d, cached, looked);
      RoleAnswersOnce(KeyOf(o, d), Get(Lookup(o, "session"), "user"), AppOf(o, d), Settled(o, d), cached, looked);
    } else {
      EndsEarly(o, d, cached, looked);
    }
  }

  /** Unless the checks pass and there is a session, `flow` answers or
    * throws at once, without a service call. */
  lemma EndsEarly(o: seq<(string, Value)>, d: seq<(string, Value)>, cached: Value, looked: Reply)
    requires !(ChecksPass(o, d) && !Nullish(Lookup(o, "session")))
    ensures |FlowOutcome(o, d, cached, looked).0| == 1
    ensures AnswersOnce(FlowOutcome(o, d, cached, looked).0)
  {
  }

  /** The role step ends with exactly one call of `next`, after one or two
    * service calls. */
  lemma RoleAnswersOnce(key: Value, user: Value, app: Value, d3: seq<(string, Value)>, cached: Value, looked: Reply)
    ensures var trace := RoleOutcome(key, user, app, d3, cached, looked).0;
      && 2 <= |trace| <= 3
      && trace[|trace| - 1].Next?
      && AnswersOnce(trace)
  {
    var ask := Call("Access.cache", [key, user, app]);
    var d4 := Put(d3, "role", cached);
    var trace: seq<Event>;
    if cached.Error? {
      trace := [ask, Next([cached])];
    } else if Truthy(cached) {
      trace := [ask, Next([Null, Obj(d4)])];
    } else {
      var lookup := Call("Access.key", [key, user, app]);
      if Truthy(looked.err) {
        trace := [ask, lookup, Next([looked.err])];
      } else {
        trace := [ask, lookup, Next([Null, Obj(Put(d4, "role", looked.res))])];
      }
    }
    assert AnswersOnce(trace);
    assert RoleOutcome(key, user, app, d3, cached, looked).0 == trace;
  }

  /** `flow` as the file is written, were it to parse: the role step names
    * `Service`, which nothing binds, so once the three checks pass a
    * ReferenceError escapes before the cache is asked, leaving the settled
    * data behind */
  function FlowAsWritten(o: seq<(string, Value)>, d: seq<(string, Value)>, cached: Value, looked: Reply)
    : (seq<Event>, seq<(string, Value)>)
  {
    if ChecksPass(o, d) then ([Throw("ReferenceError")], Settled(o, d))
    else FlowOutcome(o, d, cached, looked)
  }

  /** As written, a caller that passes every check never hears from `flow`:
    * the unbound `Service` throws where the corrected `flow` asks the cache
    * and then answers through `next`. */
  lemma ServiceUnbound(o: seq<(string, Value)>, d: seq<(string, Value)>, cached: Value, looked: Reply)
    requires ChecksPass(o, d) && !Nullish(Lookup(o, "session"))
    ensures FlowAsWritten(o, d, cached, looked).0 == [Throw("ReferenceError")]
    ensures var trace := FlowOutcome(o, d, cached, looked).0;
      && trace[0] == Call("Access.cache", [KeyOf(o, d), Get(Lookup(o, "session"), "user"), AppOf(o, d)])
      && trace[|trace| - 1].Next?
  {
    var user := Get(Lookup(o, "session"), "user");
    RoleSelection(o, d, cached, looked);
    RoleChoice(KeyOf(o, d), user, AppOf(o, d), Settled(o, d), cached, looked);
    RoleAnswersOnce(KeyOf(o, d), user, AppOf(o, d), Settled(o, d), cached, looked);
  }
}
