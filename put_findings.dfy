/** Two consequences of the update handler's loose comparison with `''`,
    shown on the handler as written, and the handler that strips only empty
    strings, with the property the guards were meant to secure proved of it. */
module PutFindings {
  import opened Js
  import opened IssueApi

  /** As written, a JSON `open: false` is loosely equal to `''` and is
      deleted before the update, so the issue cannot be closed this way. */
  lemma AsWrittenPutDropsOpenFalse(now: Timestamp)
    ensures var body := map["_id" := Str("a"), "issue_text" := Str("x"), "open" := Bool(false)];
      var out := PutOutcome(body, now);
      out.call.FindByIdAndUpdate? && "open" !in out.body && "issue_text" in out.body
  {
    var body := map["_id" := Str("a"), "issue_text" := Str("x"), "open" := Bool(false)];
    assert TruthyProp(body, "issue_text");
  }

  /** As written, an `_id` of `[]` passes the missing-id guard, since arrays
      are truthy, and is then deleted, since `[] == ''`: the update is sent
      with an undefined identifier. */
  lemma AsWrittenPutLosesArrayId(now: Timestamp)
    ensures var body := map["_id" := Arr([]), "issue_title" := Str("t")];
      var out := PutOutcome(body, now);
      out.call == FindByIdAndUpdate(None, out.body) && "_id" !in out.body
  {
    var body := map["_id" := Arr([]), "issue_title" := Str("t")];
    assert TruthyProp(body, "_id") && TruthyProp(body, "issue_title");
  }

  /** As written, an `issue_title` of `['']` passes the no-update-field guard
      and is then deleted: the update is sent with no mutable field at all. */
  lemma AsWrittenPutSendsNoUpdateField(now: Timestamp)
    ensures var body := map["_id" := Str("a"), "issue_title" := Arr([Str("")])];
      var out := PutOutcome(body, now);
      out.call.FindByIdAndUpdate? && !SendsUpdateField(out.body)
  {
    var body := map["_id" := Str("a"), "issue_title" := Arr([Str("")])];
    assert TruthyProp(body, "_id") && TruthyProp(body, "issue_title");
  }

  /** The intended strip: only entries that are exactly `''` are dropped. */
  function StripEmptyStrings(m: Body): (r: Body)
    ensures r.Keys <= m.Keys
    ensures forall k :: k in m ==> (k in r <==> m[k] != Str(""))
    ensures forall k :: k in r ==> r[k] == m[k]
  {
    map k | k in m && m[k] != Str("") :: m[k]
  }

  /** The update handler with the same guards and the strict strip. */
  function PutIntended(body: Body, now: Timestamp): (out: PutResult)
    ensures out.call.NoCall? <==> !TruthyProp(body, "_id") || !SendsUpdateField(body)
    ensures out.call.NoCall? ==> out.body == body
  {
    if !TruthyProp(body, "_id") then PutResult(body, NoCall)
    else if !SendsUpdateField(body) then PutResult(body, NoCall)
    else
      var payload := StripEmptyStrings(body["updated_on" := Date(now)]);
      PutResult(payload, FindByIdAndUpdate(Get(payload, "_id"), payload))
  }

  /** With the strict strip, whenever an update is sent it is addressed by the
      `_id` that passed the guard, carries the fresh `updated_on` and a truthy
      mutable field, and keeps every value other than `''`, `false`, `0` and
      arrays included. */
  lemma IntendedPayloadKeepsGuardedValues(body: Body, now: Timestamp)
    requires PutIntended(body, now).call.FindByIdAndUpdate?
    ensures var out := PutIntended(body, now);
      && out.call.id == Some(body["_id"])
      && out.call.update == out.body
      && "updated_on" in out.body && out.body["updated_on"] == Date(now)
      && (forall k :: k in body && k != "updated_on" && body[k] != Str("") ==> k in out.body && out.body[k] == body[k])
      && (forall k :: k in out.body ==> out.body[k] != Str(""))
      && SendsUpdateField(out.body)
  {
    var out := PutIntended(body, now);
    var stamped := body["updated_on" := Date(now)];
    assert out.body == StripEmptyStrings(stamped);
    assert Truthy(body["_id"]);
    assert "_id" in out.body && out.body["_id"] == body["_id"];
    if TruthyProp(body, "issue_title") {
      assert TruthyProp(out.body, "issue_title");
    } else if TruthyProp(body, "issue_text") {
      assert TruthyProp(out.body, "issue_text");
    } else if TruthyProp(body, "created_by") {
      assert TruthyProp(out.body, "created_by");
    } else if TruthyProp(body, "assigned_to") {
      assert TruthyProp(out.body, "assigned_to");
    } else {
      assert TruthyProp(out.body, "status_text");
    }
  }

  /** The intended handler keeps a JSON `open: false`. */
  lemma IntendedPutKeepsOpenFalse(now: Timestamp)
    ensures var body := map["_id" := Str("a"), "issue_text" := Str("x"), "open" := Bool(false)];
      var out := PutIntended(body, now);
      out.call.FindByIdAndUpdate? && "open" in out.body && out.body["open"] == Bool(false)
  {
    var body := map["_id" := Str("a"), "issue_text" := Str("x"), "open" := Bool(false)];
    assert TruthyProp(body, "issue_text");
  }

  /** On values that are neither `false`, `0` nor arrays, the intended strip
      and the strip as written agree. */
  lemma StripsAgreeOutsideFalseZeroAndArrays(m: Body)
    requires forall k :: k in m ==> m[k] != Bool(false) && m[k] != Num(0.0) && !m[k].Arr?
    ensures StripEmptyStrings(m) == StripLooseEmpty(m)
  {
    var a, b := StripEmptyStrings(m), StripLooseEmpty(m);
    forall k | k in m
      ensures (k in a) == (k in b)
    {
      LooseEqEmptyIsFalsyButNotNull(m[k]);
    }
    assert a.Keys == b.Keys;
  }
}
