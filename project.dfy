/**
  * The project handlers (`lib/project/index.js`): `create`, `get`, `list`,
  * `updateName`, and the two that are not implemented, `toggleStatus` and
  * `delete`. As for the application handlers, each returns its trace and the
  * data service's replies are parameters.
  */
module ProjectHandlers {
  import opened Js
  import Slug
  import Required
  import Replies

  const ServiceBase: string := "http://service.jillix.com/"
  const CreateRequired: seq<string> := ["name", "owner"]

  /** the `slug` of a new project: the last segment of the owner and the
    * slug of the name, '/'-separated */
  function ProjectSlug(owner: string, name: string): string {
    LastSegment(owner) + "/" + Slug.Slugify(name)
  }

  /** The slug has exactly two '/'-separated segments: the owner's name and
    * the slug of the project name. */
  lemma ProjectSlugShape(owner: string, name: string)
    ensures multiset(ProjectSlug(owner, name))['/'] == 1
    ensures LastSegment(ProjectSlug(owner, name)) == Slug.Slugify(name)
  {
    var o, n := LastSegment(owner), Slug.Slugify(name);
    Slug.SlugifyHasNoSlash(name);
    assert '/' !in multiset(o);
    assert multiset(o + "/" + n) == multiset(o) + multiset("/") + multiset(n);
    LastSegmentAfterSlash(o, n);
  }

  /** the JSON-LD document `create` sends to `Project.create`; its `@id` is
    * the service base followed by its `slug` */
  function ProjectDocument(owner: string, name: string): (doc: Value)
    ensures Get(doc, "@id") == Str(ServiceBase + Text(Get(doc, "slug")))
    ensures Get(doc, "slug") == Str(ProjectSlug(owner, name))
    ensures Get(doc, "name") == Str(name)
    ensures Get(doc, "@type") == Arr([Str("Project")])
  {
    Document(name, ProjectSlug(owner, name))
  }

  function Document(name: string, slug: string): (doc: Value)
    ensures Get(doc, "@id") == Str(ServiceBase + slug)
    ensures Get(doc, "slug") == Str(slug)
    ensures Get(doc, "name") == Str(name)
    ensures Get(doc, "@type") == Arr([Str("Project")])
  {
    var fields := [("@context", Str("http://schema.org")),
                   ("@id", Str(ServiceBase + slug)),
                   ("slug", Str(slug)),
                   ("@type", Arr([Str("Project")])),
                   ("name", Str(name))];
    LookupAt(fields, "@id", 1);
    LookupAt(fields, "slug", 2);
    LookupAt(fields, "@type", 3);
    LookupAt(fields, "name", 4);
    Obj(fields)
  }

  /** `create`: check the required fields, overwrite `data.owner` with the
    * session id, build the document, create it, then link the owner to it */
  method Create(options: JsObject, data: JsObject, created: Reply) returns (trace: seq<Event>)
    modifies data
    ensures Required.FirstMissing(old(data.props), CreateRequired).Some? ==>
      && trace == [Fail(Required.MissingMessage(Required.FirstMissing(old(data.props), CreateRequired).value))]
      && data.props == old(data.props)
    ensures Required.FirstMissing(old(data.props), CreateRequired).None? ==>
      var session := Lookup(old(options.props), "session");
      var owner := Get(session, "id");
      && (Nullish(session) ==> trace == [Throw("TypeError")] && data.props == old(data.props))
      && (!Nullish(session) ==> data.props == Put(old(data.props), "owner", owner))
      && (!Nullish(session) && !owner.Str? ==> trace == [Throw("TypeError")])
      && (!Nullish(session) && owner.Str? ==>
            var doc := ProjectDocument(owner.s, Text(Lookup(old(data.props), "name")));
            trace == [Call("Project.create", [doc]),
                      if Truthy(created.err) then Next([Error(Get(created.err, "message"))])
                      else Forward("Access.link", [owner, Get(doc, "@id"), Str("admin")])])
  {
    var missing := Required.CheckRequired(data, CreateRequired);
    if missing.Some? {
      return [Fail(missing.value)];
    }
    var session := Lookup(options.props, "session");
    if Nullish(session) {
      return [Throw("TypeError")];
    }
    var owner := Get(session, "id");
    var name := Lookup(data.props, "name");
    data.props := Put(data.props, "owner", owner);
    if !owner.Str? {
      // `data.owner.split` is not a function
      return [Throw("TypeError")];
    }
    var doc := ProjectDocument(owner.s, Text(name));
    var reply := if Truthy(created.err) then Next([Error(Get(created.err, "message"))])
                 else Forward("Access.link", [owner, Get(doc, "@id"), Str("admin")]);
    trace := [Call("Project.create", [doc]), reply];
  }

  /** `get`: a falsy `projectId` fails before the service is asked; only the
    * name of the project is requested */
  method GetProject(data: JsObject, reply: Reply) returns (trace: seq<Event>)
    ensures !Truthy(Lookup(data.props, "projectId")) ==>
      trace == [Fail("Service-api.project.get: A valid projectid must be provided")]
    ensures Truthy(Lookup(data.props, "projectId")) ==>
      trace == [Call("Project.get", [Arr([Lookup(data.props, "projectId")]), Arr([Str("http://schema.org/name")])]),
                Replies.DocumentReply(reply, "Service-api.project.get: Project not found.")]
  {
    var projectId := Lookup(data.props, "projectId");
    if !Truthy(projectId) {
      return [Fail("Service-api.project.get: A valid projectid must be provided")];
    }
    var fields := Arr([Str("http://schema.org/name")]);
    trace := [Call("Project.get", [Arr([projectId]), fields]),
              Replies.DocumentReply(reply, "Service-api.project.get: Project not found.")];
  }

  /** `list`: the projects of the session's user; nothing is required of `data` */
  method List(options: JsObject, reply: Reply) returns (trace: seq<Event>)
    ensures Nullish(Lookup(options.props, "session")) ==> trace == [Throw("TypeError")]
    ensures !Nullish(Lookup(options.props, "session")) ==>
      && |trace| >= 2 && ServiceOps(trace) == ["Project.list"]
      && trace[0] == Call("Project.list", [Get(Lookup(options.props, "session"), "id"), Obj([])])
      && Replies.ListOutcome(reply, trace[1..])
  {
    var session := Lookup(options.props, "session");
    if Nullish(session) {
      return [Throw("TypeError")];
    }
    var events := Replies.ListReply(reply);
    trace := [Call("Project.list", [Get(session, "id"), Obj([])])] + events;
    Replies.ListOutcomeCallsNothing(reply, events);
    assert trace[1..] == events;
  }

  /** `updateName`: a falsy `projectId` fails; otherwise only `name` is sent,
    * defaulting to the empty string */
  method UpdateName(data: JsObject) returns (trace: seq<Event>)
    ensures !Truthy(Lookup(data.props, "projectId")) ==>
      trace == [Fail("Service-api.project.updateName: A valid projectid must be provided")]
    ensures Truthy(Lookup(data.props, "projectId")) ==>
      trace == [Forward("Project.update", [Arr([Str("name")]), Lookup(data.props, "projectId"),
                                           Obj([("name", Or(Lookup(data.props, "name"), Str("")))])])]
  {
    var projectId := Lookup(data.props, "projectId");
    if !Truthy(projectId) {
      return [Fail("Service-api.project.updateName: A valid projectid must be provided")];
    }
    var fields := Arr([Str("name")]);
    var update := Obj([("name", Or(Lookup(data.props, "name"), Str("")))]);
    trace := [Forward("Project.update", [fields, projectId, update])];
  }

  /** `toggleStatus` and `delete` are not implemented: whatever they are
    * given, they report the plain string "not implemented yet" as the error
    * and never reach the service */
  function NotImplemented(): (trace: seq<Event>)
    ensures trace == [Next([Str("not implemented yet")])]
    ensures ServiceOps(trace) == []
  {
    [Next([Str("not implemented yet")])]
  }
}
