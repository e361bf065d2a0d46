# Issue tracker request handlers, modelled in Dafny

This project models the four Express handlers that serve `/api/issues/:project` in an issue
tracker. Each handler checks its request, shapes a payload and passes it to a single
document-store call.

- **GET** merges the path's project with the query string into an equality filter. It then
  reshapes every document the store returns into the nine public fields.
- **POST** rejects a body whose `issue_title`, `issue_text` or `created_by` is falsy. Otherwise
  it builds the new record: `''` defaults for `assigned_to` and `status_text`, and
  `open: true`.
- **PUT** rejects a falsy `_id`, and a body in which none of the five mutable fields is truthy.
  Otherwise it stamps `updated_on` and deletes, in place, every property loosely equal
  (`==`) to `''`. The body that is left goes to `findByIdAndUpdate`.
- **DELETE** rejects a falsy `_id`. Otherwise it deletes by that `_id`.

Files:

- `js.dfy` (module `Js`) covers the JavaScript semantics the handlers rely on:
  - the values a parsed body can hold (`JsValue`);
  - truthiness (`Truthy`, `Falsy`);
  - loose equality with `''` (`LooseEqEmpty`), arrays included;
  - the mutable request-body object (`JsObject`).
- `issue_api.dfy` (module `IssueApi`) holds the handlers.
  - The store is not modelled. A handler's outcome is the `StoreCall` it issues: `NoCall` or
    one call, with its exact arguments.
  - GET's reshaping loop and PUT's strip loop are methods with loops.
  - The PUT handler works on a `JsObject`. `Object.assign` with one argument returns the
    request body itself, so every change PUT makes lands in `req.body`.
  - Each method is proved against a function on values (`PutOutcome`, `StripLooseEmpty`,
    `PublicView`), and the lemmas are stated about those functions.
- `put_findings.dfy` (module `PutFindings`) gives the discrepancies listed under
  "Findings". Each is shown on the handler as written and fixed in `PutIntended`.

Where the written description of the system and the code disagree, the model follows the
code:

- The code removes every value loosely equal to `''`: `false`, `0`, `[]` and `['']` as well as
  the empty string. The description says only empty strings are removed.
- `created_on` and `updated_on` come from two separate `new Date()` calls. They are two
  independent timestamps here, and nothing claims they are equal.
- The missing-field and missing-`_id` guards test truthiness, not presence.
- Only GET writes a response (`res.json(issues)`, routes/api.js:29). The POST, PUT and DELETE
  handlers write no response body (see "Left out").

## Model

| member | source | states |
|---|---|---|
| `Js.OrEmpty` | routes/api.js:47-48 | the `''` default gives `x` when `x` is truthy, and `''` when `x` is absent or falsy |
| `Js.LooseEqEmptyIsFalsyButNotNull` | routes/api.js:63-70 | outside arrays, `v == ''` holds exactly when `v` is falsy and not `null` |
| `Js.TruthyNotLooseEqEmpty` | routes/api.js:65-70 | a truthy value that is not an array is never loosely equal to `''` |
| `Js.LooseEqEmptyExamples` | routes/api.js:70 | `''`, `false` and `0` are loosely `== ''`; `null`, `'0'`, `' '`, `true`, `1` and `{}` are not |
| `Js.ArraysTruthyYetLooseEqEmpty` | routes/api.js:63-70 | `[]` and `['']` are truthy and also `== ''`, as are `[null]` and `[[]]`; `[0]`, `[false]` and `['','']` are not |
| `Js.JsObject.constructor` | routes/api.js:61 | the object starts with exactly the request body's properties |
| `Js.JsObject.Assign` | routes/api.js:68 | assigning a property changes that key only |
| `Js.JsObject.Delete` | routes/api.js:70 | deleting a property removes that key only |
| `IssueApi.ListFilter` | routes/api.js:19-20 | every query key and value is kept unchanged, and `project` is the path project unless the query supplies its own `project` |
| `IssueApi.ListCall` | routes/api.js:19-22 | GET issues exactly one `find`; its filter keeps every query key and value unchanged, and its `project` is the query's `project` when there is one and the path project otherwise |
| `IssueApi.PublicView` | routes/api.js:27 | each response element has exactly the nine public keys, in order, each valued by the document's property of that name |
| `IssueApi.ShapeList` | routes/api.js:25-28 | the response has one element per stored document, in the store's order, each the document's public view |
| `IssueApi.PublicViewHidesOtherFields` | routes/api.js:27 | changing or removing any document field outside the nine, `project` included, leaves the response element unchanged |
| `IssueApi.CreateCall` | routes/api.js:35-54 | nothing is saved exactly when a required field is falsy or absent; otherwise the saved record has exactly nine keys: the path project, the three required fields verbatim, `assigned_to`/`status_text` as supplied if truthy else `''`, the two timestamps, and `open: true` |
| `IssueApi.CreateIgnoresOtherKeys` | routes/api.js:37 | body keys other than the five destructured fields never affect what POST saves |
| `IssueApi.CreatedIssueIsListed` | routes/api.js:42-52 | a saved record, once given an `_id`, matches the no-query GET filter of its project and shows all nine public fields |
| `IssueApi.SendsUpdateFieldIsSomeMutableField` | routes/api.js:65 | the PUT guard passes exactly when some one of the five mutable fields is truthy |
| `IssueApi.StripLooseEmpty` | routes/api.js:70 | the strip keeps a key exactly when its value is not loosely `== ''`, and it never changes a value it keeps |
| `IssueApi.StripIdempotent` | routes/api.js:70 | stripping twice gives the same map as stripping once |
| `IssueApi.StripExamples` | routes/api.js:70 | the strip removes `''`, `false` and `0`, and keeps `null`, `'0'` and `' '` unchanged |
| `IssueApi.StripLooseEmptyInPlace` | routes/api.js:70 | the in-place loop over a snapshot of the keys, in any order, leaves the object equal to the strip of its old state |
| `IssueApi.PutOutcome` | routes/api.js:60-72 | no store call happens exactly when `_id` is falsy or no mutable field is truthy, and then the body is untouched; otherwise the update payload is the body with `updated_on` stamped and then stripped, and its `_id` is read after the strip |
| `IssueApi.Put` | routes/api.js:60-75 | the handler, run in place on the request body, leaves the body and issues the call that the value-level `PutOutcome` gives |
| `IssueApi.PutWithoutUpdateFieldCallsNothing` | routes/api.js:63-66 | a truthy `_id` with all five mutable fields falsy makes no call and changes nothing, whatever other keys (`open`) the body holds |
| `IssueApi.PutPayloadKeepsGuardedValues` | routes/api.js:63-72 | when an update is sent and `_id` is not an array, the payload keeps `_id`, the fresh `updated_on`, every truthy non-array value, and a truthy mutable field whenever the truthy mutable fields are not arrays |
| `IssueApi.DeleteCall` | routes/api.js:79-85 | no call happens exactly when `_id` is falsy; otherwise exactly one delete-by-id is issued, with that `_id` |
| `IssueApi.DeleteDependsOnlyOnId` | routes/api.js:80-85 | keys other than `_id` never affect DELETE |
| `IssueApi.PutAndDeleteShareIdGuard` | routes/api.js:63-82 | a body whose `_id` DELETE rejects is rejected by PUT too, unchanged |
| `PutFindings.AsWrittenPutDropsOpenFalse` | routes/api.js:70 | as written, a PUT with `open: false` sends an update from which `open` was deleted |
| `PutFindings.AsWrittenPutLosesArrayId` | routes/api.js:63-72 | as written, `_id: []` passes the guard and the update is sent with an undefined id |
| `PutFindings.AsWrittenPutSendsNoUpdateField` | routes/api.js:65-72 | as written, `issue_title: ['']` passes the guard and the update is sent with no truthy mutable field |
| `PutFindings.StripEmptyStrings` | routes/api.js:70 | the intended strip keeps a key exactly when its value is not `''`, and never changes a kept value |
| `PutFindings.PutIntended` | routes/api.js:60-72 | same guards as the handler, so a call happens under exactly the same conditions |
| `PutFindings.IntendedPayloadKeepsGuardedValues` | routes/api.js:63-72 | with the strict strip, a sent update is addressed by the guarded `_id` and carries `updated_on`, every value except `''` (`false`, `0` and arrays included) and a truthy mutable field |
| `PutFindings.IntendedPutKeepsOpenFalse` | routes/api.js:70 | with the strict strip, `open: false` reaches the update |
| `PutFindings.StripsAgreeOutsideFalseZeroAndArrays` | routes/api.js:70 | on maps without `false`, `0` or arrays the strict strip and the loose strip agree |

Definitions the contracts above are stated in (predicates, and a lookup whose contract only
spells out its definition):

- `Js.Truthy` / `Js.Falsy` — JavaScript's `!x`, as used by the guards at routes/api.js:39, 63
  and 65. `''`, `false`, `0` and `null` are falsy; every object, arrays and dates included, is
  truthy.
- `Js.LooseEqEmpty`, with `Js.JoinsToEmpty` — the comparison `issue[k] == ''` at
  routes/api.js:70. A string is compared as a string, a boolean or number by whether it is
  zero, and `null` never matches. An object is compared through its string form: an array
  through its joined elements, where `null` and `''` elements join to nothing.
- `Js.Get` — reading `m.k` (routes/api.js:27, 37, 63-65, 72), with `None` for `undefined`
  when the key is missing.
- `Js.TruthyProp` — `!!m.k`, where a missing key is falsy.
- `IssueApi.HasRequiredFields` — the POST guard `!(!issue_title || !issue_text || !created_by)`
  at routes/api.js:39.
- `IssueApi.SendsUpdateField` — the negation of the PUT no-update-field test at
  routes/api.js:65.
- `IssueApi.StripVisited` — what the strip loop at routes/api.js:70 has left after visiting a
  given set of keys. It is the loop invariant of `StripLooseEmptyInPlace`.
- `IssueApi.Matches` — the store's equality filter, an assumption about the store. Mongoose's
  type conversion is not modelled.

## Left out

- The database connection, `process.env.MONGO_URI` and connection logging (routes/api.js:6-12): configuration and I/O.
- The document store:
  - Its results are inputs (`ShapeList`'s `data`), or it is the `StoreCall` a handler issues.
  - Not modelled: mongoose's query casting (the query string `"false"` against a boolean field),
    `ObjectId` validity, schema casting of saved values, and `findByIdAndUpdate`'s merge.
  - `models/issue` is not part of this model.
  - `Matches` assumes plain equality filtering, without casting.
- Responses:
  - The POST, PUT and DELETE handlers write no response at all; they only log.
  - The `{error: ...}` / `{result: ...}` bodies that the functional tests expect are not
    produced by this code, so they are not modelled.
  - Logging is not modelled.
- The promise chains and their `.catch(console.log)` (routes/api.js:22-32, 54-56, 72-74, 85-87):
  asynchronous plumbing with no outcome to state.
- The `if (data)` test at routes/api.js:24: `find` always yields an array, modelled as a sequence.
- JSON serialisation by `res.json`: a property that is `undefined` on a document is dropped from
  the JSON. `PublicView` keeps its key with value `None`.
- Time: every `new Date()` is an opaque `Timestamp` parameter.
- Numbers: modelled as `real`. A parsed body never holds `NaN`. An overflowing literal (`1e400`)
  parses to `Infinity`, which, like any non-zero number, is truthy and not `== ''`. The handlers
  only ask whether a number is zero.
- Objects with their own `toString` or `valueOf` property: comparing such an object with `''`
  can call or reject those properties, or throw. `Obj` always stands for a plain object, whose
  string form is `"[object Object]"`.
- Property order: `Object.assign` and `Object.keys` orders are not kept (maps are unordered). The
  strip loop visits keys in an arbitrary order and is proved to give the same result in every
  order.
- A missing `req.body`: destructuring it would throw. Express's body parser always supplies an
  object.
- PutPayloadKeepsGuardedValues: states survival only for non-array values. For an array-valued
  `_id` or mutable field the survival promised by the guards fails, as
  `PutFindings.AsWrittenPutLosesArrayId` shows.

## Findings

| source | as written | input that shows it | evidently intended | confidence | as-written member | corrected member |
|---|---|---|---|---|---|---|
| routes/api.js:70 | `issue[k] == ''` deletes `false` and `0` as well as `''` | PUT `{_id: "a", issue_text: "x", open: false}` | drop only empty strings, so that a JSON `open: false` can close an issue | medium, not executed | `PutFindings.AsWrittenPutDropsOpenFalse` | `PutFindings.IntendedPutKeepsOpenFalse` |
| routes/api.js:63-72 | an array `_id` is truthy and passes the guard, but `[] == ''`, so it is deleted before `issue._id` is read | PUT `{_id: [], issue_title: "t"}` | the update is addressed by the `_id` the guard accepted | low, not executed | `PutFindings.AsWrittenPutLosesArrayId` | `PutFindings.IntendedPayloadKeepsGuardedValues` |
| routes/api.js:65-70 | an array update field passes the no-update-field guard, then is deleted | PUT `{_id: "a", issue_title: [""]}` | every update sent carries a field that passed the guard | low, not executed | `PutFindings.AsWrittenPutSendsNoUpdateField` | `PutFindings.IntendedPayloadKeepsGuardedValues` |
