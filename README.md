# flow-service-api, modelled in Dafny

This project models the core of `flow-service-api`, a set of data handlers
that check and shape their input and then hand it to an external data-service
client. It covers these parts:

- **Registry (`registry.dfy`).** The handler registry in `index.js`.
  - `appendDataHandlers` mirrors a nested object of handlers into `module.exports`.
  - The wrapper from `generateMethod` writes the service client as `_Service` into argument 0, or into argument 1 under the stream convention, and then delegates.
- **Slug (`slug.dfy`).** `_nameToSlug`, the slug function the application and project handlers share.
- **Required (`required.dfy`).** `_checkRequired`, the first-missing-field check that three handler files repeat.
- **Replies (`replies.dfy`).** How a handler turns a service reply into calls of `next`, including the `@graph` fan-out.
- **AppHandlers, ProjectHandlers, UserHandlers (`app.dfy`, `project.dfy`, `user.dfy`).** The handlers of `lib/app`, `lib/project` and `lib/user`.
  - Each handler is a method that returns the trace of what it does: service calls, calls of `next`, and escaping exceptions.
  - The service's replies are parameters, so the model covers every outcome the service can produce.
- **Mail (`mail.dfy`).** How `sendMail` in `lib/utils.js` builds the Mandrill template, and `buildMergeVars`.
- **Access (`access.dfy`).** How `flow` in `lib/access.js` settles the key, the application id and the composition name, then chooses the role.
- **Js (`js.dfy`).** The JavaScript ground the other modules stand on.
  - Values, truthiness, and plain objects as association lists in insertion order.
  - `JsObject`, a class for the objects a handler changes in place.
  - The `Event` trace.

Objects that a handler changes in place (`options`, `data`, a wrapper's
arguments) are `JsObject`s. The handlers that assign to them are methods
with `modifies` clauses. Each method is proved against a specification
function, and lemmas prove the source's promises about those functions.

## Model

| member | source | states |
|---|---|---|
| Registry.Exports.constructor | index.js:54 | `module.exports` built from the handler tree is exactly what the fold `AppendAll` gives on empty exports |
| Registry.Exports.AppendDataHandlers | index.js:43-51 | the in-place walk leaves the namespace at `path` holding the fold of the entries over its old slots, and every other place unchanged |
| Registry.AppendMirrors | index.js:43-51 | on empty exports, the output has exactly the input's shape: one slot per entry; a namespace for every nested object; for every other value, a wrapper made with its dotted name and handler. No callability check is made |
| Registry.AppendKeeps | index.js:43-51 | a slot that no entry names keeps its value, and no slot appears that no entry names |
| Registry.NamespaceReused | index.js:47 | a nested object whose name already holds a namespace extends it and keeps its other slots; any other value under that name is replaced by a new, empty namespace |
| Registry.GraftSelf | index.js:47 | writing a namespace's own slots back changes nothing |
| Registry.GraftedNamespace | index.js:47 | a namespace just written is reachable as a namespace path |
| Registry.SlotsAtGraft | index.js:50 | what is written at a path is read back there |
| Registry.GraftGraft | index.js:50 | a second write at a path replaces the first |
| Registry.GraftChild | index.js:47-48 | filling a child namespace is the same as writing the parent with the child's new contents |
| Registry.SlotsAtAppend | index.js:47-48 | the slots one step below a path are those of the child namespace |
| Registry.InjectionOf | index.js:27-31 | `_Service` lands in argument 1 when argument 0 has truthy `i` and `o` and `i` is a transform stream, and in argument 0 otherwise, never in a later argument. A TypeError is thrown exactly when the chosen receiver is null or undefined; the write has no effect exactly when it is another primitive |
| Registry.Invoke | index.js:16-36 | only the receiver gets `_Service`, and no other argument object changes. Then the handler is called with the same `this` and the same arguments, in order. A non-function handler throws a TypeError. The dotted name plays no part, and no return value is passed back |
| Slug.TrimStart | lib/app/index.js:243 | the result is the suffix left after the leading whitespace |
| Slug.TrimEnd | lib/app/index.js:243 | the result is the prefix left before the trailing whitespace |
| Slug.LowerCase | lib/app/index.js:244 | lower-casing keeps the length |
| Slug.ReplaceChar | lib/app/index.js:250 | a one-character global replacement keeps the length |
| Slug.ReplaceTable | lib/app/index.js:249-251 | the replacement loop over the table keeps the length |
| Slug.Deaccent | lib/app/index.js:247-251 | the per-position reading of the table keeps the length |
| Slug.RemoveInvalid | lib/app/index.js:253 | keeps exactly the characters in `a-z`, `0-9`, space and `-`, and adds none |
| Slug.SpacesToDash | lib/app/index.js:254 | every character left is `-` or a non-space of the input |
| Slug.SkipDashes | lib/app/index.js:255 | the result is a suffix that does not start with `-` |
| Slug.CollapseDashes | lib/app/index.js:255 | no `--` remains, no character is added, and a leading `-` is kept exactly when there was one |
| Slug.NameToSlug | lib/app/index.js:242-258 | the loop version returns `Slugify(name)`, and that is a slug |
| Slug.TableLengths | lib/app/index.js:247-248 | both table strings have 28 characters |
| Slug.TableEntry | lib/app/index.js:247-248 | entry `k` maps an accented letter to its base letter, and each of `·/_,:;` to `-` |
| Slug.ReplacementFinal | lib/app/index.js:247-248 | no replacement character is itself replaced by a later entry |
| Slug.ReplacedCharPrefix | lib/app/index.js:249-251 | after the first `k` entries, a character is de-accented exactly when it is among them |
| Slug.ReplaceTableAt | lib/app/index.js:249-251 | the table loop acts position by position |
| Slug.TableIsPerPosition | lib/app/index.js:247-251 | the whole loop equals the per-position mapping `Deaccent` |
| Slug.SpacesToDashChars | lib/app/index.js:253-254 | after the invalid characters are dropped, turning spaces into dashes leaves only slug characters |
| Slug.SlugifyIsSlug | lib/app/index.js:253-255 | every slug uses only `a-z`, `0-9` and `-`, and has no `--` |
| Slug.SlugifyHasNoSlash | lib/app/index.js:253-255 | a slug holds no `/`, so it adds no path segment to an `@id` |
| Slug.TrimStartSpaces | lib/app/index.js:243 | leading whitespace does not change the trimmed start |
| Slug.TrimEndSpaces | lib/app/index.js:243 | trailing whitespace does not change the trimmed end |
| Slug.TrimTrailing | lib/app/index.js:243 | trailing whitespace does not change the trim |
| Slug.SurroundingSpaceIgnored | lib/app/index.js:242-258 | whitespace around a name does not change its slug |
| Slug.RemoveInvalidKeeps | lib/app/index.js:253 | a string of valid characters passes unchanged |
| Slug.SpacesToDashKeeps | lib/app/index.js:254 | a string without whitespace passes unchanged |
| Slug.CollapseDashesKeeps | lib/app/index.js:255 | a string without `--` passes unchanged |
| Slug.TrimKeeps | lib/app/index.js:243 | a string without whitespace is its own trim |
| Slug.LowerCaseKeeps | lib/app/index.js:244 | slug characters are already lower case |
| Slug.DeaccentKeeps | lib/app/index.js:247-251 | slug characters are not in the table |
| Slug.SlugifyIdempotent | lib/app/index.js:242-258 | `_nameToSlug` applied twice gives the same as once |
| Required.FirstMissing | lib/app/index.js:230-240 | no field is reported exactly when every listed field is a non-empty string; otherwise the first failing field in list order is reported |
| Required.CheckRequired | lib/app/index.js:230-240 | the loop reports the error for exactly the field `FirstMissing` names, or nothing |
| Required.FirstMissingIsUnique | lib/project/index.js:205-215 | a failing field with every earlier field present is the one reported |
| Required.FirstMissingReadsFields | lib/user/index.js:479-489 | the check depends only on the listed fields |
| Replies.DocumentReply | lib/app/index.js:84-94 | an error is relayed; a missing document is reported as not found; otherwise the document is handed on |
| Replies.ListReply | lib/app/index.js:125-143 | the list callback's events are the `ListOutcome` of the reply |
| Replies.ListOutcomeUnique | lib/app/index.js:127-142 | every reply has exactly one outcome |
| Replies.ListOutcomeCallsNothing | lib/project/index.js:117-132 | the list reply only calls `next` (at least once) and never the service |
| Replies.GraphEventsOnlyNext | lib/app/index.js:136-139 | the fan-out consists of calls of `next` only |
| Replies.ListOutcomeGraphEnds | lib/app/index.js:135-139 | a `@graph` array yields one event per item plus a final `next(null, null)` |
| Js.Or | lib/access.js:28 | `a || b`: truthy exactly when one operand is; the first operand when it is truthy |
| Js.Put | lib/access.js:28-59 | a property assignment sets the key, leaves every other key, and adds a new key last |
| Js.LastSegment | lib/app/index.js:39-40 | the last piece after splitting at `/` is a `/`-free suffix that follows a `/` or is the whole string |
| Js.LastSegmentAfterSlash | lib/user/index.js:85 | the last segment of `prefix/seg` is `seg` |
| Js.GraphEvents | lib/app/index.js:136-139 | one `next(item, true)` per item in order, then `next(null, null)` |
| Js.EmitGraph | lib/app/index.js:136-139 | the `forEach` loop emits exactly `GraphEvents` |
| Js.ServiceOps | lib/app/index.js:136-139 | a trace of `next` calls and throws makes no service call |
| AppHandlers.AppSlugShape | lib/app/index.js:39-40 | the slug has three `/`-separated segments, and its last one is the slug of the name |
| AppHandlers.AppDocument | lib/app/index.js:37-45 | `@id` is `http://service.jillix.com/` followed by the slug. The slug is the owner's and the project's last segments plus the slug of the name. Name, project and author are stored as given |
| AppHandlers.Document | lib/app/index.js:37-45 | the document fields for a given slug |
| AppHandlers.Create | lib/app/index.js:18-58 | a missing field fails first and leaves `data` alone. Otherwise `owner` is overwritten by the session id, the document is created, and on success the owner is linked as admin. A missing session or a non-string id throws |
| AppHandlers.GetApp | lib/app/index.js:73-95 | a falsy `appId` fails before any service call; otherwise `App.get` and the document reply |
| AppHandlers.List | lib/app/index.js:110-145 | a missing `project` fails; otherwise `App.list` for the session's user, then the list reply |
| AppHandlers.UpdateName | lib/app/index.js:161-174 | a falsy `appId` fails; otherwise `App.update` of `['name']` with `name` or `''` |
| AppHandlers.Delete | lib/app/index.js:190-223 | `App.delete` is called exactly when the fields are present, the app is found, and its name equals `nameConfirm`. Otherwise the answer is the missing field's error, the lookup error unchanged, "App not found" when there is no document, or "App name is incorrect" |
| ProjectHandlers.ProjectSlugShape | lib/project/index.js:37-38 | the slug has two segments, and its last one is the slug of the name |
| ProjectHandlers.ProjectDocument | lib/project/index.js:35-41 | `@id` is `http://service.jillix.com/` followed by the slug. The slug is the owner's last segment plus the slug of the name |
| ProjectHandlers.Document | lib/project/index.js:35-41 | the document fields for a given slug |
| ProjectHandlers.Create | lib/project/index.js:17-54 | a missing field fails first; then `owner` is overwritten by the session id, and the project is created and linked |
| ProjectHandlers.GetProject | lib/project/index.js:69-93 | a falsy `projectId` fails before any service call; only the name is asked for |
| ProjectHandlers.List | lib/project/index.js:108-134 | `Project.list` for the session's user, then the list reply; a missing session throws |
| ProjectHandlers.UpdateName | lib/project/index.js:150-163 | a falsy `projectId` fails; otherwise `['name']` with `name` or `''` is sent |
| ProjectHandlers.NotImplemented | lib/project/index.js:178-199 | `toggleStatus` and `delete` answer `next` once with the plain string `'not implemented yet'` and never reach the service |
| UserHandlers.WithSession | lib/user/index.js:80 | the session is made truthy, a truthy one is kept, and no other option changes |
| UserHandlers.SessionIdUnchanged | lib/user/index.js:80 | the default session never changes the session id |
| UserHandlers.DefaultSession | lib/user/index.js:80 | the in-place assignment gives `WithSession` |
| UserHandlers.EmailEntry | lib/user/index.js:53-57 | the one address is primary and not active |
| UserHandlers.UserDocument | lib/user/index.js:46-59 | `@id` is the base followed by the username; there is exactly one email entry; the password is stored as its hash |
| UserHandlers.UserDocumentNames | lib/user/index.js:47-52 | the document is a `Person` and carries the username, given name and family name as given |
| UserHandlers.Create | lib/user/index.js:24-64 | a missing field is reported first, then a password mismatch. `User.create` is called exactly when both checks pass |
| UserHandlers.RequestedUser | lib/user/index.js:83-86 | `data.username` when truthy; otherwise the last segment of a truthy session id; a non-string id throws |
| UserHandlers.RequestedUserFromSession | lib/user/index.js:84-85 | a session id `base/name` leads to `name` |
| UserHandlers.GetUser | lib/user/index.js:79-99 | the session is defaulted, then `User.get` for the requested user and the profile fields |
| UserHandlers.AskForUser | lib/user/index.js:83-98 | `User.get` is asked for the requested user and the profile fields; a non-string session id throws before any call |
| UserHandlers.LoggedUser | lib/user/index.js:115-123 | not logged in without a truthy session id; a non-string id throws; otherwise an object whose only key is `username`, holding the id's last segment |
| UserHandlers.GetLoggedUser | lib/user/index.js:113-124 | changes nothing and never calls the service |
| UserHandlers.DefaultedPayload | lib/user/index.js:143-147 | the payload has exactly the listed keys |
| UserHandlers.DefaultedPayloadLookup | lib/user/index.js:143-147 | each listed field holds the data's value when truthy and `''` otherwise; other keys are absent |
| UserHandlers.DefaultedPayloadReadsFields | lib/user/index.js:169-172 | the payload depends only on the listed fields |
| UserHandlers.FieldList | lib/user/index.js:194-197 | the field list sent is the declared list |
| UserHandlers.UpdateProfile | lib/user/index.js:140-226 | one `User.update` with the declared fields, the session id and the defaulted payload |
| UserHandlers.UpdateName | lib/user/index.js:140-151 | `givenName` and `familyName`, defaulted to `''` |
| UserHandlers.UpdateLocation | lib/user/index.js:166-176 | `address`, defaulted to `''` |
| UserHandlers.UpdateWebsite | lib/user/index.js:191-201 | `website`, defaulted to `''` |
| UserHandlers.UpdateCompany | lib/user/index.js:216-226 | `worksFor`, defaulted to `''` |
| UserHandlers.UpdateUsername | lib/user/index.js:241-253 | always fails with "Not implemented yet" and never calls update |
| UserHandlers.LookupErrorIsLost | lib/user/index.js:294-295 | as written, a failed password lookup throws and never reaches `next`; the corrected handling relays the error |
| UserHandlers.UpdateOnlyWithCorrectPassword | lib/user/index.js:301-314 | the password is updated only when every check passes and the hash of the old password equals the stored one; the update stores the hash of the new password |
| UserHandlers.ChecksComeFirst | lib/user/index.js:274-292 | a missing field is reported before a mismatch, neither reaches the service, and the lookup happens only after both checks |
| UserHandlers.ChangePasswordReadsFields | lib/user/index.js:274-288 | only the three password fields of the data matter to the outcome |
| UserHandlers.ChangePassword | lib/user/index.js:270-317 | the trace is `ChangePasswordEvents` and `oldPassword` ends up hashed, including when `options` and `data` are the same object |
| UserHandlers.CheckAndChange | lib/user/index.js:279-316 | the callback's trace and the data it leaves behind |
| UserHandlers.AddedEmail | lib/user/index.js:338-347 | an error from the service is handed on; otherwise the reply is an object with exactly the keys `value`, `active` and `primary`: the new address, neither active nor primary |
| UserHandlers.AddEmail | lib/user/index.js:332-349 | `User.addEmail` with the address and the session id; then the error, or the new address as neither active nor primary |
| UserHandlers.GetEmails | lib/user/index.js:364-389 | fails without `userId` and without a session id; otherwise prefers `userId`, then the email reply |
| UserHandlers.EmailsAllEmitted | lib/user/index.js:384-387 | each address is emitted in order, then `next(null, null)` |
| Mail.EnumerableKeys | lib/utils.js:69 | a for-in loop visits an object's keys in insertion order, and the indices `0`, `1`, … of an array or a string, in decimal |
| Mail.MergeVar | lib/utils.js:70-73 | one `{name, content}` pair |
| Mail.MergeVars | lib/utils.js:66-79 | one merge variable per key, in order: the `i`-th is named by the `i`-th key and holds the value under it |
| Mail.BuildMergeVars | lib/utils.js:66-79 | the loop returns `MergeVars` |
| Mail.FromMergeVars | lib/utils.js:66-79 | reading merge variables back gives one property per variable |
| Mail.MergeVarsRoundTrip | lib/utils.js:66-79 | the merge variables of an object read back to that object |
| Mail.MergeVarsOfArray | lib/utils.js:69-73 | the merge variables of an array are named by their indices and hold the items |
| Mail.Recipient | lib/utils.js:28-31 | a recipient is of type `to` and holds its address |
| Mail.Recipients | lib/utils.js:27-32 | one recipient per destination, in order |
| Mail.RecipientsOfArray | lib/utils.js:27-32 | an array of addresses gives one recipient per address, in order |
| Mail.WithCarries | lib/utils.js:35-47 | an optional property is present exactly when it is set |
| Mail.WithKeeps | lib/utils.js:35-47 | setting one property leaves every other one |
| Mail.SendersCarry | lib/utils.js:10-21 | `from_email` is present exactly when `from` is truthy, and `from_name` exactly when its name is also truthy |
| Mail.LayoutCarries | lib/utils.js:10-47 | each property of the message is present exactly when its option is truthy |
| Mail.AssembleIsBuilt | lib/utils.js:10-47 | the assembled message satisfies `Built` |
| Mail.PutInFront | lib/utils.js:28 | replacing a property of the first part leaves the rest |
| Mail.PutRecipients | lib/utils.js:27-32 | filling the recipients keeps the sender fields |
| Mail.AddOptional | lib/utils.js:35-37 | an optional property is added when its option is truthy |
| Mail.AddMergeVars | lib/utils.js:40-42 | merge variables are added when `merge_vars` is truthy |
| Mail.StartMessage | lib/utils.js:10-21 | an empty recipient list, then the sender fields |
| Mail.FinishMessage | lib/utils.js:27-47 | the recipients, subject, merge variables and headers, in assignment order |
| Mail.BuildMessage | lib/utils.js:7-47 | no message exactly when there is no destination; otherwise the message `Assemble` describes |
| Mail.SendMail | lib/utils.js:5-48 | fails with "No email destination provided." without destinations. Otherwise one template is sent: `template_name` is `options.template`, `template_content` is empty, and the message is built from the options |
| Access.Flow | lib/access.js:25-65 | the in-place steps give the trace and data of `FlowOutcome`, including when `options` and `data` are the same object |
| Access.AskRole | lib/access.js:46-64 | the role step gives `RoleOutcome` |
| Access.KeySettled | lib/access.js:28-64 | once the key is settled, the data keeps it however `flow` ends |
| Access.KeyPrecedence | lib/access.js:28 | the key is the first truthy one among `data.key`, `options.key` and `options.session.key` |
| Access.NoKeyFails | lib/access.js:29-31 | "No API Key found" exactly when all three keys are falsy |
| Access.AppCheckedAfterKey | lib/access.js:34-37 | "No AppID found" exactly when a key was found and neither app id is truthy |
| Access.CompOnlyWhenRequired | lib/access.js:40-43 | a missing composition is an error exactly when `compReq` is truthy |
| Access.RoleKeeps | lib/access.js:46-59 | the role step changes no property but `role` |
| Access.RoleSelection | lib/access.js:45-64 | once the checks pass, `flow` is the role step on the settled data |
| Access.RoleChoice | lib/access.js:46-64 | the cache is asked first. An Error from it is passed on unchanged. A truthy role is final. A falsy role leads to the key service, whose role or error is returned |
| Access.FlowChangesOnlyItsFields | lib/access.js:28-59 | only `key`, `app`, `comp` and `role` change; once the checks pass, they hold the settled values |
| Access.FlowAnswersOnce | lib/access.js:25-65 | `next` is called exactly once, as the last event, or an exception escapes |
| Access.EndsEarly | lib/access.js:28-46 | unless the checks pass and there is a session, `flow` answers through `next` or throws at once, with no service call |
| Access.RoleAnswersOnce | lib/access.js:46-64 | the role step ends with exactly one call of `next` |
| Access.ServiceUnbound | lib/access.js:45-53 | as written, a call that passes every check throws a ReferenceError at the unbound `Service`; the corrected `flow` asks the cache with the settled key, the session's user and the settled app id, and ends with `next` |

## Left out

- The Mandrill client, its key and the actual `sendTemplate` round trip (lib/utils.js:1-2, 49-60) are network I/O. The model stops at the template handed to `sendTemplate`.
- The data-service client (`options._Service.*`, `Service.Access.cache`, `Service.Access.key`) is external. Its calls are recorded in the trace, and its replies are parameters.
- `_hashPassword` (SHA-1 through `crypto`) is a function parameter `hash`.
- `authenticate`, `deleteSession` and `deleteAccount` in lib/user/index.js are left out. They consist of `JSON.parse`, session I/O and a stub.
- lib/access/index.js is a stub that calls `next(null, data)`. It is not part of this model.
- Callback timing is not modelled. A trace records the order of events, not when they happen.
- The `./lib` handler tree that `index.js` registers is not part of this model. The registry is proved for any tree.
- `SetOrGet` and `IterateObject` come from libraries whose source is not part of this model. The model takes them to behave as follows:
  - an existing namespace object is reused, and any other value is replaced by `{}`;
  - an array's entries are named by their indices;
  - `null`, whose type is 'object', is an empty namespace;
  - the iteration visits every entry in order, because the callback never returns false.
- A non-callable leaf is not rejected when the exports are built: the code wraps every non-object value. `Registry.AppendMirrors` installs a wrapper for any leaf, and `Registry.Invoke` throws a TypeError when such a wrapper is called.
- Registry.Invoke: an argument given as a primitive is not updated. Writing to a primitive is a silent no-op in sloppy mode. An object passed as `Prim` is also left unchanged, because the model holds it by value.
- Registry.Invoke: the handler's own effects and return value are not modelled. The wrapper does not return them.
- Namespace aliasing is not modelled: the model names each namespace object by its path. A tree that reached the same object by two paths would not be modelled.
- `toLowerCase` and `\s` are modelled for ASCII, Latin-1 and the characters of the replacement table. Full Unicode case mapping and white space are not.
- Numbers are integers: NaN, floating point and `-0` do not arise.
- A for-in loop visits an object's keys in insertion order. JavaScript's rule that integer-like keys come first is not modelled.
- Mail.DestinationCount: an object `tos` with a non-numeric or negative `length` counts as having no destinations.
- lib/access.js does not load as written (see Findings). `Access.Flow` models its evident meaning: the cache and the key service are the injected service client.
- lib/user/index.js:295 hands a lookup error to an unbound `callback`. The as-written behaviour is modelled, and the rest of the model uses the corrected one (see Findings).

## Findings

| source | as written | input that shows it | evidently intended | confidence | as-written member | corrected member |
|---|---|---|---|---|---|---|
| lib/user/index.js:295 | a failed password lookup calls `callback(err)`, but no `callback` is in scope: a ReferenceError escapes and `next` is never called | `changePassword` with all three fields present and confirmed, a string session id, and a lookup that replies with an error | relay the error with `next(err)`, as the other branches do | not executed | UserHandlers.ChangePasswordEventsAsWritten | UserHandlers.ChangePasswordEvents |
| lib/access.js:46 | the role step calls `Service.Access.cache` and `Service.Access.key`, but nothing binds `Service`, so a ReferenceError escapes once the checks pass and `next` is never called; besides, line 24 lacks the comma after `cache`, so the file does not even load | `flow` with a truthy `data.key`, a truthy `data.app`, no `compReq` and a session object | ask the access cache and key service of the injected service client, then answer through `next` | not executed | Access.FlowAsWritten | Access.Flow |
