/**
  * The application handlers (`lib/app/index.js`): `create`, `get`, `list`,
  * `updateName` and `delete`. Each is a method that returns the trace of what
  * it does; the data service's replies are parameters, so every outcome of
  * the service is covered.
  */
module AppHandlers {
  import opened Js
  import Slug
  import Required
  import Replies

  const ServiceBase: string := "http://service.jillix.com/"
  const CreateRequired: seq<string> := ["name", "owner", "project"]
  const ListRequired: seq<string> := ["project"]
  const DeleteRequired: seq<string> := ["appId", "nameConfirm"]

  /** the `slug` of a new application: the last segments of owner and
    * project and the slug of the name, '/'-separated */
  function AppSlug(owner: string, project: string, name: string): string {
    LastSegment(owner) + "/" + LastSegment(project) + "/" + Slug.Slugify(name)
  }

  /** The slug has exactly three '/'-separated segments and its last one is
    * the slug of the name, so the name can be read back off the `@id`. */
  lemma AppSlugShape(owner: string, project: string, name: string)
    ensures multiset(AppSlug(owner, project, name))['/'] == 2
    ensures LastSegment(AppSlug(owner, project, name)) == Slug.Slugify(name)
  {
    var o, p, n := LastSegment(owner), LastSegment(project), Slug.Slugify(name);
    Slug.SlugifyHasNoSlash(name);
    assert '/' !in multiset(o) && '/' !in multiset(p);
    assert o + "/" + p + "/" + n == (o + "/" + p) + "/" + n;
    assert multiset(o + "/" + p) == multiset(o) + multiset("/") + multiset(p);
    assert multiset(o + "/" + p + "/" + n) == multiset(o + "/" + p) + multiset("/") + multiset(n);
    LastSegmentAfterSlash(o + "/" + p, n);
  }

  /** the JSON-LD document `create` sends to `App.create`; its `@id` is the
    * service base followed by its `slug` */
  function AppDocument(owner: string, project: string, name: string): (doc: Value)
    ensures Get(doc, "@id") == Str(ServiceBase + Text(Get(doc, "slug")))
    ensures Get(doc, "slug") == Str(AppSlug(owner, project, name))
    ensures Get(doc, "name") == Str(name) && Get(doc, "partOfProject") == Str(project)
    ensures Get(doc, "author") == Str(owner)
  {
    Document(owner, project, name, AppSlug(owner, project, name))
  }

  function Document(owner: string, project: string, name: string, slug: string): (doc: Value)
    ensures Get(doc, "@id") == Str(ServiceBase + slug)
    ensures Get(doc, "slug") == Str(slug)
    ensures Get(doc, "name") == Str(name) && Get(doc, "partOfProject") == Str(project)
    ensures Get(doc, "author") == Str(owner)
  {
    var fields := [("@context", Str("http://schema.org")),
                   ("@id", Str(ServiceBase + slug)),
                   ("slug", Str(slug)),
                   ("@type", Arr([Str("Application")])),
                   ("name", Str(name)),
                   ("partOfProject", Str(project)),
                   ("author", Str(owner))];
    LookupAt(fields, "@id", 1);
    LookupAt(fields, "slug", 2);
    LookupAt(fields, "name", 4);
    LookupAt(fields, "partOfProject", 5);
    LookupAt(fields, "author", 6);
    Obj(fields)
  }

  /** `create`: check the required fields, overwrite `data.owner` with the
    * session id, build the document, create it, then link the owner to it */
  method Create(options: JsObject, data: JsObject, created: Reply) returns (trace: seq<Event>)
    modifies data
    ensures Required.FirstMissing(old(data.props), CreateRequired).Some? ==>
      && trace == [Fail(Required.MissingMessage(Required.FirstMissing(old(data.props), CreateRequired).value))]
      && data.props == old(data.props)
    ensures Required.FirstMissing(old(data.props), CreateRequired).None? ==>
      var session := Lookup(old(options.props), "session");
      var owner := Get(session, "id");
      && (Nullish(session) ==> trace == [Throw("TypeError")] && data.props == old(data.props))
      && (!Nullish(session) ==> data.props == Put(old(data.props), "owner", owner))
      && (!Nullish(session) && !owner.Str? ==> trace == [Throw("TypeError")])
      && (!Nullish(session) && owner.Str? ==>
            var doc := AppDocument(owner.s, Text(Lookup(old(data.props), "project")),
                                   Text(Lookup(old(data.props), "name")));
            trace == [Call("App.create", [doc]),
                      if Truthy(created.err) then Next([Error(Get(created.err, "message"))])
                      else Forward("Access.link", [owner, Get(doc, "@id"), Str("admin")])])
  {
    var missing := Required.CheckRequired(data, CreateRequired);
    if missing.Some? {
      return [Fail(missing.value)];
    }
    var session := Lookup(options.props, "session");
    if Nullish(session) {
      return [Throw("TypeError")];
    }
    var owner := Get(session, "id");
    var project, name := Lookup(data.props, "project"), Lookup(data.props, "name");
    data.props := Put(data.props, "owner", owner);
    if !owner.Str? {
      // `data.owner.split` is not a function
      return [Throw("TypeError")];
    }
    var doc := AppDocument(owner.s, Text(project), Text(name));
    var reply := if Truthy(created.err) then Next([Error(Get(created.err, "message"))])
                 else Forward("Access.link", [owner, Get(doc, "@id"), Str("admin")]);
    trace := [Call("App.create", [doc]), reply];
  }

  /** `get`: a falsy `appId` fails before the service is asked */
  method GetApp(data: JsObject, reply: Reply) returns (trace: seq<Event>)
    ensures !Truthy(Lookup(data.props, "appId")) ==>
      trace == [Fail("Service-api.app.get: A valid appId must be provided")]
    ensures Truthy(Lookup(data.props, "appId")) ==>
      trace == [Call("App.get", [Arr([Lookup(data.props, "appId")])]),
                Replies.DocumentReply(reply, "Service-api.app.get: App not found.")]
  {
    var appId := Lookup(data.props, "appId");
    if !Truthy(appId) {
      return [Fail("Service-api.app.get: A valid appId must be provided")];
    }
    trace := [Call("App.get", [Arr([appId])]), Replies.DocumentReply(reply, "Service-api.app.get: App not found.")];
  }

  /** `list`: the apps of a project, listed for the session's user */
  method List(options: JsObject, data: JsObject, reply: Reply) returns (trace: seq<Event>)
    ensures Required.FirstMissing(data.props, ListRequired).Some? ==>
      trace == [Fail(Required.MissingMessage("project"))]
    ensures Required.FirstMissing(data.props, ListRequired).None? ==>
      var session := Lookup(options.props, "session");
      && (Nullish(session) ==> trace == [Throw("TypeError")])
      && (!Nullish(session) ==>
            && |trace| >= 2 && ServiceOps(trace) == ["App.list"]
            && trace[0] == Call("App.list", [Get(session, "id"), Lookup(data.props, "project"), Obj([])])
            && Replies.ListOutcome(reply, trace[1..]))
  {
    var missing := Required.CheckRequired(data, ListRequired);
    if missing.Some? {
      return [Fail(missing.value)];
    }
    var session := Lookup(options.props, "session");
    if Nullish(session) {
      return [Throw("TypeError")];
    }
    var events := Replies.ListReply(reply);
    trace := [Call("App.list", [Get(session, "id"), Lookup(data.props, "project"), Obj([])])] + events;
    Replies.ListOutcomeCallsNothing(reply, events);
    assert trace[1..] == events;
  }

  /** `updateName`: a falsy `appId` fails; otherwise only `name` is sent,
    * defaulting to the empty string */
  method UpdateName(data: JsObject) returns (trace: seq<Event>)
    ensures !Truthy(Lookup(data.props, "appId")) ==>
      trace == [Fail("Service-api.app.updateName: A valid appId must be provided")]
    ensures Truthy(Lookup(data.props, "appId")) ==>
      trace == [Forward("App.update", [Arr([Str("name")]), Lookup(data.props, "appId"),
                                       Obj([("name", Or(Lookup(data.props, "name"), Str("")))])])]
  {
    var appId := Lookup(data.props, "appId");
    if !Truthy(appId) {
      return [Fail("Service-api.app.updateName: A valid appId must be provided")];
    }
    var fields := Arr([Str("name")]);
    var update := Obj([("name", Or(Lookup(data.props, "name"), Str("")))]);
    trace := [Forward("App.update", [fields, appId, update])];
  }

  /** `delete`: fetch the app's name and delete it only when it equals
    * `nameConfirm` */
  method Delete(data: JsObject, fetched: Reply) returns (trace: seq<Event>)
    ensures Required.FirstMissing(data.props, DeleteRequired).Some? ==>
      trace == [Fail(Required.MissingMessage(Required.FirstMissing(data.props, DeleteRequired).value))]
    ensures Required.FirstMissing(data.props, DeleteRequired).None? ==>
      |trace| == 2 &&
      trace[0] == Call("App.get", [Arr([Lookup(data.props, "appId")]), Arr([Str("http://schema.org/name")])])
    ensures (exists id :: Forward("App.delete", [id]) in trace) <==>
      && Required.FirstMissing(data.props, DeleteRequired).None?
      && !Truthy(fetched.err) && Replies.HasDocument(fetched)
      && Get(Get(fetched.res, "jsonld"), "name") == Lookup(data.props, "nameConfirm")
    ensures Required.FirstMissing(data.props, DeleteRequired).None? && Truthy(fetched.err) ==>
      trace[1] == Next([fetched.err])
    ensures Required.FirstMissing(data.props, DeleteRequired).None? && !Truthy(fetched.err)
            && !Replies.HasDocument(fetched) ==>
      trace[1] == Fail("Service-api.app.delete: App not found")
    ensures Required.FirstMissing(data.props, DeleteRequired).None? && !Truthy(fetched.err)
            && Replies.HasDocument(fetched) ==>
      var app := Get(fetched.res, "jsonld");
      trace[1] == if Get(app, "name") != Lookup(data.props, "nameConfirm")
                  then Fail("Service-api.app.delete: App name is incorrect")
                  else Forward("App.delete", [Or(Get(app, "id"), Get(app, "@id"))])
  {
    var missing := Required.CheckRequired(data, DeleteRequired);
    if missing.Some? {
      return [Fail(missing.value)];
    }
    var appId := Lookup(data.props, "appId");
    trace := [Call("App.get", [Arr([appId]), Arr([Str("http://schema.org/name")])])];
    if Truthy(fetched.err) {
      return trace + [Next([fetched.err])];
    }
    if !Truthy(fetched.res) || !Truthy(Get(fetched.res, "jsonld")) {
      return trace + [Fail("Service-api.app.delete: App not found")];
    }
    var app := Get(fetched.res, "jsonld");
    // the id falls back to the `@id` when it is falsy
    var id := Or(Get(app, "id"), Get(app, "@id"));
    if Get(app, "name") != Lookup(data.props, "nameConfirm") {
      return trace + [Fail("Service-api.app.delete: App name is incorrect")];
    }
    trace := trace + [Forward("App.delete", [id])];
  }
}
