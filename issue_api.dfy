/** The request handlers for `/api/issues/:project`: the GET filter and the
    nine-field projection of what the store returns, the POST required-field
    guard and the new record, the PUT guards and the in-place removal of
    empty values, and the DELETE guard.

    Every handler ends in at most one call into the document store. The store
    is not modelled: a handler's outcome is the `StoreCall` it issues, with
    the exact arguments it passes. Clocks are parameters (`Timestamp`). */
module IssueApi {
  import opened Js

  /** A parsed request body, a query string or a stored document. */
  type Body = map<string, JsValue>

  /** An opaque instant, the value of one `new Date()`. */
  type Timestamp = int

  /** The one store call a handler issues, with its arguments. */
  datatype StoreCall =
    | NoCall
    | Find(filter: Body)
    | Save(record: Body)
    | FindByIdAndUpdate(id: Option<JsValue>, update: Body)
    | FindByIdAndDelete(key: JsValue)

  /** The public fields of an issue, in the order the GET response lists them. */
  const PublicFields: seq<string> :=
    ["_id", "assigned_to", "status_text", "issue_title", "issue_text",
     "created_by", "created_on", "updated_on", "open"]

  /** The fields a creation request must supply. */
  const RequiredFields: set<string> := {"issue_title", "issue_text", "created_by"}

  /** The fields the creation handler reads from the body. */
  const CreationFields: set<string> := RequiredFields + {"assigned_to", "status_text"}

  /** The fields of which an update request must supply at least one. */
  const MutableFields: set<string> := CreationFields

  /** The fields of a record built by the creation handler. */
  const RecordFields: set<string> :=
    CreationFields + {"project", "created_on", "updated_on", "open"}

  // ---------------------------------------------------------------- GET

  /** `Object.assign({ project: project }, req.query)`: the query's own
      properties are copied over a fresh object holding the path's project,
      so a `project` key in the query wins. */
  function ListFilter(project: string, query: Body): (filter: Body)
    ensures filter.Keys == query.Keys + {"project"}
    ensures forall k :: k in query ==> filter[k] == query[k]
    ensures "project" !in query ==> filter["project"] == Str(project)
  {
    map["project" := Str(project)] + query
  }

  /** The GET handler's store call: one `find`, whose filter holds every
      query key with its value unchanged, plus `project`, which is the path
      project unless the query supplies its own. */
  function ListCall(project: string, query: Body): (c: StoreCall)
    ensures c.Find?
    ensures c.filter.Keys == query.Keys + {"project"}
    ensures forall k :: k in query ==> c.filter[k] == query[k]
    ensures c.filter["project"] == if "project" in query then query["project"] else Str(project)
  {
    Find(ListFilter(project, query))
  }

  /** One element of the GET response: the object literal pushed for each
      document, as (key, value) pairs in key order; `None` is a property of
      the document that is `undefined`. */
  type PublicIssue = seq<(string, Option<JsValue>)>

  function PublicView(doc: Body): (p: PublicIssue)
    ensures |p| == |PublicFields|
    ensures forall i :: 0 <= i < |p| ==> p[i].0 == PublicFields[i] && p[i].1 == Get(doc, PublicFields[i])
  {
    [("_id", Get(doc, "_id")),
     ("assigned_to", Get(doc, "assigned_to")),
     ("status_text", Get(doc, "status_text")),
     ("issue_title", Get(doc, "issue_title")),
     ("issue_text", Get(doc, "issue_text")),
     ("created_by", Get(doc, "created_by")),
     ("created_on", Get(doc, "created_on")),
     ("updated_on", Get(doc, "updated_on")),
     ("open", Get(doc, "open"))]
  }

  /** The `forEach` + `push` loop that reshapes the documents the store
      returned: one element per document, in the store's order. */
  method ShapeList(data: seq<Body>) returns (issues: seq<PublicIssue>)
    ensures |issues| == |data|
    ensures forall i :: 0 <= i < |data| ==> issues[i] == PublicView(data[i])
  {
    issues := [];
    for i := 0 to |data|
      invariant |issues| == i
      invariant forall j :: 0 <= j < i ==> issues[j] == PublicView(data[j])
    {
      issues := issues + [PublicView(data[i])];
    }
  }

  /** No field outside the nine leaks: changing or removing any other field
      of a document (its project, its version key, anything else) leaves its
      public view unchanged. */
  lemma PublicViewHidesOtherFields(doc: Body, k: string, v: JsValue)
    requires k !in PublicFields
    ensures PublicView(doc[k := v]) == PublicView(doc)
    ensures PublicView(doc - {k}) == PublicView(doc)
  {
    var p, q, r := PublicView(doc[k := v]), PublicView(doc), PublicView(doc - {k});
    forall i | 0 <= i < |q|
      ensures p[i] == q[i] && r[i] == q[i]
    {
      assert PublicFields[i] != k;
    }
  }

  // ---------------------------------------------------------------- POST

  /** `!(!issue_title || !issue_text || !created_by)` */
  predicate HasRequiredFields(body: Body) {
    TruthyProp(body, "issue_title") && TruthyProp(body, "issue_text") && TruthyProp(body, "created_by")
  }

  /** The POST handler: a body missing a required field, or holding a falsy
      one, is logged and nothing is saved; otherwise a new record is built
      and saved. The two timestamps are the two separate `new Date()` calls. */
  function CreateCall(project: string, body: Body, createdOn: Timestamp, updatedOn: Timestamp): (c: StoreCall)
    ensures c.NoCall? || c.Save?
    ensures c.NoCall? <==> exists f :: f in RequiredFields && !TruthyProp(body, f)
    ensures c.Save? ==>
      && c.record.Keys == RecordFields
      && c.record["project"] == Str(project)
      && (forall f :: f in RequiredFields ==> f in body && c.record[f] == body[f])
      && (forall f :: f in CreationFields - RequiredFields && TruthyProp(body, f) ==> c.record[f] == body[f])
      && (forall f :: f in CreationFields - RequiredFields && !TruthyProp(body, f) ==> c.record[f] == Str(""))
      && c.record["created_on"] == Date(createdOn)
      && c.record["updated_on"] == Date(updatedOn)
      && c.record["open"] == Bool(true)
  {
    if !HasRequiredFields(body) then
      assert !TruthyProp(body, "issue_title") || !TruthyProp(body, "issue_text") || !TruthyProp(body, "created_by");
      NoCall
    else
      Save(map[
        "project" := Str(project),
        "issue_title" := body["issue_title"],
        "issue_text" := body["issue_text"],
        "created_by" := body["created_by"],
        "assigned_to" := OrEmpty(Get(body, "assigned_to")),
        "status_text" := OrEmpty(Get(body, "status_text")),
        "created_on" := Date(createdOn),
        "updated_on" := Date(updatedOn),
        "open" := Bool(true)])
  }

  /** Only the five fields the handler destructures matter: any other key of
      the body (`open`, `_id`, `project`, ...) is ignored. */
  lemma CreateIgnoresOtherKeys(project: string, body: Body, k: string, v: JsValue, createdOn: Timestamp, updatedOn: Timestamp)
    requires k !in CreationFields
    ensures CreateCall(project, body[k := v], createdOn, updatedOn) == CreateCall(project, body, createdOn, updatedOn)
  {
    var b := body[k := v];
    forall f | f in CreationFields
      ensures Get(b, f) == Get(body, f)
    {
    }
    assert HasRequiredFields(b) == HasRequiredFields(body);
  }

  /** The store's equality filter (no type casting): every filter field is
      present in the document with the same value. */
  predicate Matches(doc: Body, filter: Body) {
    forall k :: k in filter ==> k in doc && doc[k] == filter[k]
  }

  /** A saved record, once the store has given it an identifier, is found by
      a GET of the same project with no query, and its listing has all nine
      public fields defined. */
  lemma CreatedIssueIsListed(project: string, body: Body, createdOn: Timestamp, updatedOn: Timestamp, id: JsValue)
    requires HasRequiredFields(body)
    ensures CreateCall(project, body, createdOn, updatedOn).Save?
    ensures var stored := CreateCall(project, body, createdOn, updatedOn).record["_id" := id];
      && Matches(stored, ListFilter(project, map[]))
      && forall j :: 0 <= j < |PublicFields| ==> PublicView(stored)[j].1.Some?
  {
    var c := CreateCall(project, body, createdOn, updatedOn);
    assert !c.NoCall?;
    var stored := c.record["_id" := id];
    var filter := ListFilter(project, map[]);
    assert filter.Keys == {"project"};
    forall j | 0 <= j < |PublicFields|
      ensures PublicView(stored)[j].1.Some?
    {
      assert PublicFields[j] in stored;
    }
  }

  // ---------------------------------------------------------------- PUT

  /** `!(!issue_title && !issue_text && !created_by && !assigned_to && !status_text)` */
  predicate SendsUpdateField(body: Body) {
    TruthyProp(body, "issue_title") || TruthyProp(body, "issue_text") || TruthyProp(body, "created_by")
    || TruthyProp(body, "assigned_to") || TruthyProp(body, "status_text")
  }

  lemma SendsUpdateFieldIsSomeMutableField(body: Body)
    ensures SendsUpdateField(body) <==> exists f :: f in MutableFields && TruthyProp(body, f)
  {
    if SendsUpdateField(body) {
      var f :| f in ["issue_title", "issue_text", "created_by", "assigned_to", "status_text"] && TruthyProp(body, f);
      assert f in MutableFields;
    }
  }

  /** What the strip loop leaves of `m`: every entry whose value is not
      loosely equal to `''`. */
  function StripLooseEmpty(m: Body): (r: Body)
    ensures r.Keys <= m.Keys
    ensures forall k :: k in m ==> (k in r <==> !LooseEqEmpty(m[k]))
    ensures forall k :: k in r ==> r[k] == m[k]
  {
    map k | k in m && !LooseEqEmpty(m[k]) :: m[k]
  }

  /** What the loop has left of `m` once it has visited the keys in `done`. */
  function StripVisited(m: Body, done: set<string>): Body {
    map k | k in m && !(k in done && LooseEqEmpty(m[k])) :: m[k]
  }

  /** Stripping twice gives what stripping once gives. */
  lemma StripIdempotent(m: Body)
    ensures StripLooseEmpty(StripLooseEmpty(m)) == StripLooseEmpty(m)
  {
    var once := StripLooseEmpty(m);
    var twice := StripLooseEmpty(once);
    assert twice.Keys == once.Keys;
  }

  /** The strip removes `false` and `0` as well as `''`, and keeps `null`,
      `'0'` and `' '`. */
  lemma StripExamples(m: Body, k: string)
    requires k in m
    ensures m[k] in {Str(""), Bool(false), Num(0.0)} ==> k !in StripLooseEmpty(m)
    ensures m[k] in {Null, Str("0"), Str(" ")} ==> k in StripLooseEmpty(m) && StripLooseEmpty(m)[k] == m[k]
  {
  }

  /** `Object.keys(issue).forEach((k) => issue[k] == '' && delete issue[k])`:
      the keys are taken once, then each is visited (in whatever order) and
      deleted when its value is loosely equal to `''`. */
  method StripLooseEmptyInPlace(issue: JsObject)
    modifies issue
    ensures issue.props == StripLooseEmpty(old(issue.props))
  {
    ghost var m0 := issue.props;
    var keys := issue.props.Keys;
    var pending := keys;
    while pending != {}
      invariant pending <= keys && keys == m0.Keys
      invariant issue.props == StripVisited(m0, keys - pending)
      decreases pending
    {
      var k :| k in pending;
      assert k in issue.props;
      if LooseEqEmpty(issue.props[k]) {
        issue.Delete(k);
      }
      pending := pending - {k};
      assert issue.props == StripVisited(m0, keys - pending);
    }
    assert issue.props == StripLooseEmpty(m0);
  }

  /** The body after the PUT handler and the call it issues. */
  datatype PutResult = PutResult(body: Body, call: StoreCall)

  /** The PUT handler on values: a falsy `_id`, or no truthy mutable field,
      leaves the body as it is and calls nothing; otherwise `updated_on` is
      stamped, the loosely empty entries are deleted, and `_id` is read from
      what is left. */
  function PutOutcome(body: Body, now: Timestamp): (out: PutResult)
    ensures out.call.NoCall? || out.call.FindByIdAndUpdate?
    ensures out.call.NoCall? <==> !TruthyProp(body, "_id") || !SendsUpdateField(body)
    ensures out.call.NoCall? ==> out.body == body
    ensures out.call.FindByIdAndUpdate? ==>
      && out.body == StripLooseEmpty(body["updated_on" := Date(now)])
      && out.call.update == out.body
      && out.call.id == Get(out.body, "_id")
  {
    if !TruthyProp(body, "_id") then PutResult(body, NoCall)
    else if !SendsUpdateField(body) then PutResult(body, NoCall)
    else
      var payload := StripLooseEmpty(body["updated_on" := Date(now)]);
      PutResult(payload, FindByIdAndUpdate(Get(payload, "_id"), payload))
  }

  /** The PUT handler on the request body itself, which `Object.assign` with
      a single argument returns unchanged, so every change is made to
      `req.body` in place. */
  method Put(issue: JsObject, now: Timestamp) returns (call: StoreCall)
    modifies issue
    ensures PutOutcome(old(issue.props), now) == PutResult(issue.props, call)
  {
    if !TruthyProp(issue.props, "_id") {
      call := NoCall;  // "missing id"
    } else if !TruthyProp(issue.props, "issue_title") && !TruthyProp(issue.props, "issue_text")
           && !TruthyProp(issue.props, "created_by") && !TruthyProp(issue.props, "assigned_to")
           && !TruthyProp(issue.props, "status_text") {
      call := NoCall;  // "no update field(s) sent"
    } else {
      issue.Assign("updated_on", Date(now));
      StripLooseEmptyInPlace(issue);
      call := FindByIdAndUpdate(Get(issue.props, "_id"), issue.props);
    }
  }

  /** A truthy `_id` with no truthy mutable field calls nothing, whatever
      else the body holds (`open` included). */
  lemma PutWithoutUpdateFieldCallsNothing(body: Body, now: Timestamp)
    requires TruthyProp(body, "_id")
    requires forall f :: f in MutableFields ==> !TruthyProp(body, f)
    ensures PutOutcome(body, now) == PutResult(body, NoCall)
  {
    assert !TruthyProp(body, "issue_title") && !TruthyProp(body, "status_text");
  }

  /** The payload of an update keeps `_id`, the fresh `updated_on`, and every
      truthy value that is not an array, in particular the mutable field that
      passed the guard: no truthy non-array value is loosely equal to `''`. */
  lemma PutPayloadKeepsGuardedValues(body: Body, now: Timestamp)
    requires PutOutcome(body, now).call.FindByIdAndUpdate?
    requires !body["_id"].Arr?
    ensures var out := PutOutcome(body, now);
      && out.call.id == Some(body["_id"])
      && "updated_on" in out.body && out.body["updated_on"] == Date(now)
      && (forall k :: k in body && k != "updated_on" && Truthy(body[k]) && !body[k].Arr? ==>
            k in out.body && out.body[k] == body[k])
      && ((forall f :: f in MutableFields && TruthyProp(body, f) ==> !body[f].Arr?) ==> SendsUpdateField(out.body))
  {
    var stamped := body["updated_on" := Date(now)];
    var out := PutOutcome(body, now);
    forall k | k in body && k != "updated_on" && Truthy(body[k]) && !body[k].Arr?
      ensures k in out.body && out.body[k] == body[k]
    {
      TruthyNotLooseEqEmpty(stamped[k]);
    }
    TruthyNotLooseEqEmpty(body["_id"]);
  }

  // ---------------------------------------------------------------- DELETE

  /** The DELETE handler: a falsy `_id` calls nothing; otherwise exactly one
      delete by that `_id`. */
  function DeleteCall(body: Body): (c: StoreCall)
    ensures c.NoCall? || c.FindByIdAndDelete?
    ensures c.NoCall? <==> !TruthyProp(body, "_id")
    ensures c.FindByIdAndDelete? ==> c.key == body["_id"] && Truthy(c.key)
  {
    if !TruthyProp(body, "_id") then NoCall else FindByIdAndDelete(body["_id"])
  }

  /** Only `_id` matters to a delete. */
  lemma DeleteDependsOnlyOnId(body: Body, k: string, v: JsValue)
    requires k != "_id"
    ensures DeleteCall(body[k := v]) == DeleteCall(body)
    ensures DeleteCall(body - {k}) == DeleteCall(body)
  {
  }

  /** PUT and DELETE share the `_id` guard: a body that DELETE rejects is
      rejected by PUT too. */
  lemma PutAndDeleteShareIdGuard(body: Body, now: Timestamp)
    ensures DeleteCall(body).NoCall? ==> PutOutcome(body, now) == PutResult(body, NoCall)
  {
  }
}
