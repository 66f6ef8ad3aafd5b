/**
  * The mail utilities (`lib/utils.js`): how `sendMail` builds the Mandrill
  * template from its options, and `buildMergeVars`, which turns an object
  * into the list of `{name, content}` merge variables. Sending the template
  * is the last event of the trace; Mandrill's answer is not part of this
  * model.
  */
module Mail {
  import opened Js

  const NoDestination: string := "No email destination provided."

  /* ---------- buildMergeVars ---------- */

  /** the names a for-in loop over `v` visits: an object's own properties
    * in insertion order, the indices of an array or a string; an error's
    * `message` is not enumerable, and the other values have none */
  function EnumerableKeys(v: Value): (keys: seq<string>)
    ensures v.Obj? ==> keys == KeysOf(v.fields)
    ensures v.Arr? ==> |keys| == |v.items|
    ensures v.Str? ==> |keys| == |v.s|
    ensures v.Arr? || v.Str? ==> forall i :: 0 <= i < |keys| ==> keys[i] == NatToString(i)
    ensures !(v.Obj? || v.Arr? || v.Str?) ==> keys == []
  {
    match v
    case Obj(fields) => KeysOf(fields)
    case Arr(items) => seq(|items|, i requires 0 <= i < |items| => NatToString(i))
    case Str(s) => seq(|s|, i requires 0 <= i < |s| => NatToString(i))
    case _ => []
  }

  /** the value under the `i`-th name a for-in loop over `v` visits */
  function EnumeratedValue(v: Value, i: nat): Value
    requires i < |EnumerableKeys(v)|
  {
    match v
    case Obj(fields) => Lookup(fields, fields[i].0)
    case Arr(items) => items[i]
    case Str(s) => Str([s[i]])
  }

  /** one merge variable */
  function MergeVar(name: string, content: Value): (r: Value)
    ensures Get(r, "name") == Str(name) && Get(r, "content") == content
  {
    var fields := [("name", Str(name)), ("content", content)];
    LookupAt(fields, "content", 1);
    Obj(fields)
  }

  /** the merge variables `buildMergeVars` returns, one per key in the order
    * the keys are visited */
  function MergeVars(data: Value): (vars: seq<Value>)
    ensures |vars| == |EnumerableKeys(data)|
    ensures forall i :: 0 <= i < |vars| ==>
      Get(vars[i], "name") == Str(EnumerableKeys(data)[i]) && Get(vars[i], "content") == EnumeratedValue(data, i)
  {
    seq(|EnumerableKeys(data)|, i requires 0 <= i < |EnumerableKeys(data)| =>
      MergeVar(EnumerableKeys(data)[i], EnumeratedValue(data, i)))
  }

  /** `buildMergeVars`: the for-in loop adding one name and content pair per key */
  method BuildMergeVars(data: Value) returns (vars: seq<Value>)
    ensures vars == MergeVars(data)
  {
    var keys := EnumerableKeys(data);
    vars := [];
    for i := 0 to |keys|
      invariant vars == MergeVars(data)[..i]
    {
      vars := vars + [MergeVar(keys[i], EnumeratedValue(data, i))];
    }
  }

  /** the object a list of merge variables describes */
  function FromMergeVars(vars: seq<Value>): (fields: seq<(string, Value)>)
    ensures |fields| == |vars|
  {
    seq(|vars|, i requires 0 <= i < |vars| => (Text(Get(vars[i], "name")), Get(vars[i], "content")))
  }

  predicate UniqueKeys(fields: seq<(string, Value)>) {
    forall i, j :: 0 <= i < j < |fields| ==> fields[i].0 != fields[j].0
  }

  /** Reading the merge variables back gives the object they were built
    * from: every property appears once, under its own name, with its value,
    * in the same order. */
  lemma MergeVarsRoundTrip(fields: seq<(string, Value)>)
    requires UniqueKeys(fields)
    ensures FromMergeVars(MergeVars(Obj(fields))) == fields
  {
    var vars := MergeVars(Obj(fields));
    var back := FromMergeVars(vars);
    forall i | 0 <= i < |fields| ensures back[i] == fields[i] {
      LookupAt(fields, fields[i].0, i);
    }
  }

  /** The merge variables of an array are named by its indices and hold its
    * items in order. */
  lemma MergeVarsOfArray(items: seq<Value>, i: nat)
    requires i < |items|
    ensures |MergeVars(Arr(items))| == |items|
    ensures Get(MergeVars(Arr(items))[i], "name") == Str(NatToString(i))
    ensures Get(MergeVars(Arr(items))[i], "content") == items[i]
  {
  }

  /* ---------- sendMail ---------- */

  /** how many times the recipient loop runs: the length of an array or a
    * string, the numeric `length` of an object (none when it is negative) */
  function DestinationCount(tos: Value): nat {
    match tos
    case Arr(items) => |items|
    case Str(s) => |s|
    case Obj(fields) => if Lookup(fields, "length").Num? && Lookup(fields, "length").n > 0
                        then Lookup(fields, "length").n else 0
    case _ => 0
  }

  /** the `i`-th destination */
  function Destination(tos: Value, i: nat): Value
    requires i < DestinationCount(tos)
  {
    match tos
    case Arr(items) => items[i]
    case Str(s) => Str([s[i]])
    case Obj(fields) => Lookup(fields, NatToString(i))
  }

  /** one entry of `message.to` */
  function Recipient(email: Value): (r: Value)
    ensures Get(r, "type") == Str("to") && Get(r, "email") == email
  {
    var fields := [("type", Str("to")), ("email", email)];
    LookupAt(fields, "email", 1);
    Obj(fields)
  }

  /** the recipients, one of type 'to' with its address per destination, in order */
  function Recipients(tos: Value): (r: seq<Value>)
    ensures |r| == DestinationCount(tos)
    ensures forall i :: 0 <= i < |r| ==> Get(r[i], "email") == Destination(tos, i)
  {
    seq(DestinationCount(tos), i requires 0 <= i < DestinationCount(tos) => Recipient(Destination(tos, i)))
  }

  /** the options carry at least one destination */
  predicate HasDestinations(options: Value) {
    Truthy(Get(options, "tos")) && Truthy(LengthOf(Get(options, "tos")))
  }

  /** what the message is built from: the recipient list, `options.from`,
    * `options.subject`, `options.merge_vars` with the merge variables made
    * from it, and `options.headers` */
  datatype Parts = Parts(to: Value, from: Value, subject: Value, mergeVars: Value, vars: Value, headers: Value)

  function PartsOf(options: Value): Parts {
    Parts(Arr(Recipients(Get(options, "tos"))), Get(options, "from"), Get(options, "subject"),
          Get(options, "merge_vars"), Arr(MergeVars(Get(options, "merge_vars"))), Get(options, "headers"))
  }

  /** the message has the property `key`, holding `v`, exactly when `present` */
  predicate Carries(message: seq<(string, Value)>, key: string, v: Value, present: bool) {
    && (key in KeysOf(message) <==> present)
    && (present ==> Lookup(message, key) == v)
  }

  /** the message holds the recipients; `from_email` exactly when `from` is
    * truthy, `from_name` exactly when its name is truthy too; and the
    * subject, the merge variables and the headers each exactly when their
    * option is truthy */
  predicate Built(p: Parts, message: seq<(string, Value)>) {
    && Carries(message, "to", p.to, true)
    && Carries(message, "from_email", Get(p.from, "email"), Truthy(p.from))
    && Carries(message, "from_name", Get(p.from, "name"), Truthy(p.from) && Truthy(Get(p.from, "name")))
    && Carries(message, "subject", p.subject, Truthy(p.subject))
    && Carries(message, "global_merge_vars", p.vars, Truthy(p.mergeVars))
    && Carries(message, "headers", p.headers, Truthy(p.headers))
  }

  /** the message part of the template `sendMail` sends */
  predicate MessageBuilt(options: Value, message: Value) {
    message.Obj? && Built(PartsOf(options), message.fields)
  }

  /** the message with the property `key` set to `v` when `present`, for a
    * key the message does not have yet */
  function With(message: seq<(string, Value)>, key: string, v: Value, present: bool): seq<(string, Value)> {
    if present then message + [(key, v)] else message
  }

  /** The property set is carried exactly when it was asked for. */
  lemma WithCarries(message: seq<(string, Value)>, key: string, v: Value, present: bool, was: Value)
    requires Carries(message, key, was, false)
    ensures Carries(With(message, key, v, present), key, v, present)
  {
    if present {
      KeysOfAppend(message, [(key, v)]);
      LookupAppend(message, [(key, v)], key);
    }
  }

  /** Setting one property leaves every other one as it was. */
  lemma WithKeeps(message: seq<(string, Value)>, key: string, v: Value, present: bool,
                  other: string, w: Value, had: bool)
    requires other != key && Carries(message, other, w, had)
    ensures Carries(With(message, key, v, present), other, w, had)
  {
    if present {
      KeysOfAppend(message, [(key, v)]);
      LookupAppend(message, [(key, v)], other);
    }
  }

  /** the message, property by property in the order the source assigns
    * them (the `to` array comes first, as it is created with the message):
    * each optional property with its value and whether it is set */
  function Layout(to: Value, email: Value, hasEmail: bool, name: Value, hasName: bool,
                  subject: Value, hasSubject: bool, vars: Value, hasVars: bool,
                  headers: Value, hasHeaders: bool): seq<(string, Value)>
  {
    With(With(With(Senders(to, email, hasEmail, name, hasName),
                   "subject", subject, hasSubject),
              "global_merge_vars", vars, hasVars),
         "headers", headers, hasHeaders)
  }

  /** the message up to the sender: the recipients, then the sender's
    * address and name when they are set */
  function Senders(to: Value, email: Value, hasEmail: bool, name: Value, hasName: bool): seq<(string, Value)> {
    With(With([("to", to)], "from_email", email, hasEmail), "from_name", name, hasName)
  }

  /** what a message holds: the recipients and, for each optional property,
    * whether it is set and to what */
  predicate Holds(m: seq<(string, Value)>, to: Value, email: Value, hasEmail: bool, name: Value, hasName: bool,
                  subject: Value, hasSubject: bool, vars: Value, hasVars: bool,
                  headers: Value, hasHeaders: bool)
  {
    && Carries(m, "to", to, true)
    && Carries(m, "from_email", email, hasEmail)
    && Carries(m, "from_name", name, hasName)
    && Carries(m, "subject", subject, hasSubject)
    && Carries(m, "global_merge_vars", vars, hasVars)
    && Carries(m, "headers", headers, hasHeaders)
  }

  /** After the sender, the message carries the recipients and the sender
    * as asked, and none of the later properties. */
  lemma SendersCarry(to: Value, email: Value, hasEmail: bool, name: Value, hasName: bool)
    ensures Holds(Senders(to, email, hasEmail, name, hasName), to, email, hasEmail, name, hasName,
                  Undefined, false, Undefined, false, Undefined, false)
  {
    var m0 := [("to", to)];
    assert Holds(m0, to, Undefined, false, Undefined, false, Undefined, false, Undefined, false, Undefined, false);
    var m1 := With(m0, "from_email", email, hasEmail);
    WithKeeps(m0, "from_email", email, hasEmail, "to", to, true);
    WithCarries(m0, "from_email", email, hasEmail, Undefined);
    WithKeeps(m0, "from_email", email, hasEmail, "from_name", Undefined, false);
    WithKeeps(m0, "from_email", email, hasEmail, "subject", Undefined, false);
    WithKeeps(m0, "from_email", email, hasEmail, "global_merge_vars", Undefined, false);
    WithKeeps(m0, "from_email", email, hasEmail, "headers", Undefined, false);
    WithKeeps(m1, "from_name", name, hasName, "to", to, true);
    WithKeeps(m1, "from_name", name, hasName, "from_email", email, hasEmail);
    WithCarries(m1, "from_name", name, hasName, Undefined);
    WithKeeps(m1, "from_name", name, hasName, "subject", Undefined, false);
    WithKeeps(m1, "from_name", name, hasName, "global_merge_vars", Undefined, false);
    WithKeeps(m1, "from_name", name, hasName, "headers", Undefined, false);
  }

  /** Each property of the layout is present exactly when it is set, and
    * holds its own value. */
  lemma LayoutCarries(to: Value, email: Value, hasEmail: bool, name: Value, hasName: bool,
                      subject: Value, hasSubject: bool, vars: Value, hasVars: bool,
                      headers: Value, hasHeaders: bool)
    ensures Holds(Layout(to, email, hasEmail, name, hasName, subject, hasSubject, vars, hasVars, headers, hasHeaders),
                  to, email, hasEmail, name, hasName, subject, hasSubject, vars, hasVars, headers, hasHeaders)
  {
    var m2 := Senders(to, email, hasEmail, name, hasName);
    SendersCarry(to, email, hasEmail, name, hasName);
    var m3 := With(m2, "subject", subject, hasSubject);
    WithKeeps(m2, "subject", subject, hasSubject, "to", to, true);
    WithKeeps(m2, "subject", subject, hasSubject, "from_email", email, hasEmail);
    WithKeeps(m2, "subject", subject, hasSubject, "from_name", name, hasName);
    WithCarries(m2, "subject", subject, hasSubject, Undefined);
    WithKeeps(m2, "subject", subject, hasSubject, "global_merge_vars", Undefined, false);
    WithKeeps(m2, "subject", subject, hasSubject, "headers", Undefined, false);
    var m4 := With(m3, "global_merge_vars", vars, hasVars);
    WithKeeps(m3, "global_merge_vars", vars, hasVars, "to", to, true);
    WithKeeps(m3, "global_merge_vars", vars, hasVars, "from_email", email, hasEmail);
    WithKeeps(m3, "global_merge_vars", vars, hasVars, "from_name", name, hasName);
    WithKeeps(m3, "global_merge_vars", vars, hasVars, "subject", subject, hasSubject);
    WithCarries(m3, "global_merge_vars", vars, hasVars, Undefined);
    WithKeeps(m3, "global_merge_vars", vars, hasVars, "headers", Undefined, false);
    WithKeeps(m4, "headers", headers, hasHeaders, "to", to, true);
    WithKeeps(m4, "headers", headers, hasHeaders, "from_email", email, hasEmail);
    WithKeeps(m4, "headers", headers, hasHeaders, "from_name", name, hasName);
    WithKeeps(m4, "headers", headers, hasHeaders, "subject", subject, hasSubject);
    WithKeeps(m4, "headers", headers, hasHeaders, "global_merge_vars", vars, hasVars);
    WithCarries(m4, "headers", headers, hasHeaders, Undefined);
  }

  /** the message `sendMail` builds from the parts */
  function Assemble(p: Parts): seq<(string, Value)> {
    Layout(p.to, Get(p.from, "email"), Truthy(p.from),
           Get(p.from, "name"), Truthy(p.from) && Truthy(Get(p.from, "name")),
           p.subject, Truthy(p.subject), p.vars, Truthy(p.mergeVars), p.headers, Truthy(p.headers))
  }

  /** The assembled message has each optional property exactly when its
    * option asks for it. */
  lemma AssembleIsBuilt(p: Parts)
    ensures Built(p, Assemble(p))
  {
    LayoutCarries(p.to, Get(p.from, "email"), Truthy(p.from),
                  Get(p.from, "name"), Truthy(p.from) && Truthy(Get(p.from, "name")),
                  p.subject, Truthy(p.subject), p.vars, Truthy(p.mergeVars), p.headers, Truthy(p.headers));
  }

  /** Replacing a property the first part has leaves the rest as it is. */
  lemma {:induction false} PutInFront(a: seq<(string, Value)>, b: seq<(string, Value)>, key: string, v: Value)
    requires key in KeysOf(a)
    ensures Put(a + b, key, v) == Put(a, key, v) + b
  {
    var ab := a + b;
    assert ab[0] == a[0] && ab[1..] == a[1..] + b;
    if a[0].0 == key {
      calc {
        Put(ab, key, v);
        [(key, v)] + (a[1..] + b);
        ([(key, v)] + a[1..]) + b;
      }
    } else {
      assert key in KeysOf(a[1..]);
      PutInFront(a[1..], b, key, v);
      calc {
        Put(ab, key, v);
        [a[0]] + Put(a[1..] + b, key, v);
        [a[0]] + (Put(a[1..], key, v) + b);
        ([a[0]] + Put(a[1..], key, v)) + b;
      }
    }
  }

  /** Replacing the recipients of a started message keeps its sender. */
  lemma PutRecipients(email: Value, hasEmail: bool, name: Value, hasName: bool, to: Value)
    ensures Put(Senders(Arr([]), email, hasEmail, name, hasName), "to", to)
         == Senders(to, email, hasEmail, name, hasName)
  {
    var m1 := With([("to", Arr([]))], "from_email", email, hasEmail);
    if hasEmail {
      PutInFront([("to", Arr([]))], [("from_email", email)], "to", to);
    }
    if hasName {
      PutInFront(m1, [("from_name", name)], "to", to);
    }
  }

  /** sets the property `key` of the message being built to `v` when
    * `present`; the key is a new one */
  method AddOptional(message: seq<(string, Value)>, key: string, v: Value, present: bool) returns (r: seq<(string, Value)>)
    requires key !in KeysOf(message)
    ensures r == With(message, key, v, present)
  {
    r := message;
    if present {
      PutNew(message, key, v);
      r := Put(message, key, v);
    }
  }

  /** adds the merge variables made from `merge_vars` when that option is truthy */
  method AddMergeVars(message: seq<(string, Value)>, mergeVars: Value) returns (r: seq<(string, Value)>)
    requires "global_merge_vars" !in KeysOf(message)
    ensures r == With(message, "global_merge_vars", Arr(MergeVars(mergeVars)), Truthy(mergeVars))
  {
    r := message;
    if Truthy(mergeVars) {
      var vars := BuildMergeVars(mergeVars);
      r := AddOptional(message, "global_merge_vars", Arr(vars), true);
    }
  }

  /** the message as `sendMail` starts it: an empty recipient list, then the
    * sender's address and name when `from` gives them */
  method StartMessage(from: Value) returns (message: seq<(string, Value)>)
    ensures message == Senders(Arr([]), Get(from, "email"), Truthy(from),
                               Get(from, "name"), Truthy(from) && Truthy(Get(from, "name")))
  {
    message := [("to", Arr([]))];
    message := AddOptional(message, "from_email", Get(from, "email"), Truthy(from));
    // `from.name` is only looked at inside the test of `from`
    message := AddOptional(message, "from_name", Get(from, "name"), Truthy(from) && Truthy(Get(from, "name")));
  }

  /** the rest of the message once the recipients are known: they replace
    * the empty list, then the subject, the merge variables and the headers
    * are added when their options are truthy */
  method FinishMessage(start: seq<(string, Value)>, from: Value, to: seq<Value>,
                       subject: Value, mergeVars: Value, headers: Value) returns (message: seq<(string, Value)>)
    requires start == Senders(Arr([]), Get(from, "email"), Truthy(from),
                              Get(from, "name"), Truthy(from) && Truthy(Get(from, "name")))
    ensures message == Layout(Arr(to), Get(from, "email"), Truthy(from),
                              Get(from, "name"), Truthy(from) && Truthy(Get(from, "name")),
                              subject, Truthy(subject), Arr(MergeVars(mergeVars)), Truthy(mergeVars),
                              headers, Truthy(headers))
  {
    ghost var email, hasEmail := Get(from, "email"), Truthy(from);
    ghost var name, hasName := Get(from, "name"), Truthy(from) && Truthy(Get(from, "name"));
    PutRecipients(email, hasEmail, name, hasName, Arr(to));
    message := Put(start, "to", Arr(to));
    ghost var m2 := message;
    SendersCarry(Arr(to), email, hasEmail, name, hasName);
    WithKeeps(m2, "subject", subject, Truthy(subject), "global_merge_vars", Undefined, false);
    WithKeeps(m2, "subject", subject, Truthy(subject), "headers", Undefined, false);
    message := AddOptional(message, "subject", subject, Truthy(subject));
    ghost var m3 := message;
    WithKeeps(m3, "global_merge_vars", Arr(MergeVars(mergeVars)), Truthy(mergeVars), "headers", Undefined, false);
    message := AddMergeVars(message, mergeVars);
    message := AddOptional(message, "headers", headers, Truthy(headers));
  }

  /** the message, property by property as `sendMail` assigns them; nothing
    * when there is no destination */
  method BuildMessage(options: Value) returns (built: Option<seq<(string, Value)>>)
    ensures built.None? <==> !HasDestinations(options)
    ensures built.Some? ==> built.value == Assemble(PartsOf(options))
  {
    var from := Get(options, "from");
    var message := StartMessage(from);
    var tos := Get(options, "tos");
    if !Truthy(tos) || !Truthy(LengthOf(tos)) {
      return None;
    }
    var to: seq<Value> := [];
    for i := 0 to DestinationCount(tos)
      invariant to == Recipients(tos)[..i]
    {
      to := to + [Recipient(Destination(tos, i))];
    }
    assert to == Recipients(tos);
    message := FinishMessage(message, from, to, Get(options, "subject"), Get(options, "merge_vars"), Get(options, "headers"));
    return Some(message);
  }

  /** `sendMail(options, callback)` up to the hand-over to Mandrill: without
    * a destination the callback gets the error and nothing is sent; else the
    * template is sent, named after `options.template`, with no template
    * content and the message built from the options */
  method SendMail(options: Value) returns (trace: seq<Event>)
    ensures Nullish(options) ==> trace == [Throw("TypeError")]
    ensures !Nullish(options) && !HasDestinations(options) ==> trace == [Fail(NoDestination)]
    ensures !Nullish(options) && HasDestinations(options) ==>
      && |trace| == 1 && trace[0].Call? && trace[0].op == "mandrill.messages.sendTemplate"
      && |trace[0].args| == 1 && trace[0].args[0].Obj?
      && var template := trace[0].args[0];
         && KeysOf(template.fields) == ["template_name", "template_content", "message"]
         && Get(template, "template_name") == Get(options, "template")
         && Get(template, "template_content") == Arr([])
         && MessageBuilt(options, Get(template, "message"))
  {
    if Nullish(options) {
      // `options.template` of null or undefined
      return [Throw("TypeError")];
    }
    var message := BuildMessage(options);
    if message.None? {
      return [Fail(NoDestination)];
    }
    var fields := [("template_name", Get(options, "template")),
                   ("template_content", Arr([])),
                   ("message", Obj(message.value))];
    LookupAt(fields, "template_content", 1);
    LookupAt(fields, "message", 2);
    AssembleIsBuilt(PartsOf(options));
    trace := [Call("mandrill.messages.sendTemplate", [Obj(fields)])];
  }

  /** With one destination per entry of an array, the message names each of
    * them exactly once, in order. */
  lemma RecipientsOfArray(emails: seq<Value>)
    ensures var r := Recipients(Arr(emails));
      |r| == |emails| &&
      forall i :: 0 <= i < |emails| ==> Get(r[i], "type") == Str("to") && Get(r[i], "email") == emails[i]
  {
  }
}
