/// The REST resource of the occasion service (OccasionResource.java): the
/// access check every endpoint makes, the id rules of create and run, the
/// mapping of a run's outcome to a reply, update as store-then-cancel-then-
/// reschedule, delete that succeeds only when exactly one record went, and
/// the startup reload that schedules every stored occasion.
module Resource {
  import opened Doc
  import opened Responses
  import Occasions
  import Storage
  import opened Orchestration

  /** What a reply carries: nothing, plain text, or a JSON object. */
  datatype Body = NoBody | Text(text: string) | Json(json: Object)

  datatype Response = Response(status: int, body: Body)

  const RunSuccessKey := "runSuccess"
  const RunErrorKey := "runError"
  const UsersGroup := "users"
  const OrchestratorGroup := "orchestrator"

  const NoPrincipal := "No authorization header or unable to inflate JWT"
  const NotInGroup := "User is not in a valid group"
  const CreateEmpty := "Create failed. Empty payload."
  const RunEmpty := "Run failed. Empty payload."
  const RunNeedsId := "Run failed. Payload must contain an ID."
  const InvalidId := "invalid occasion id"
  const DeletionFailed := "occasion deletion failed"
  const InvalidDate := "Invalid date given. Format must be YYYY-MM-DD"

  /** The 400 reply to a create payload that carries an id. */
  function CarriesId(id: ObjectId): string {
    "Create failed. Payload must not contain an ID. Recieved ID: \"" + id + "\""
  }

  /** validateJWT: `groups` are the groups of the caller's JWT (None: no
      principal). The reply is None when access is granted, else the 401. */
  function ValidateJwt(groups: Option<set<string>>): (r: Option<Response>)
    ensures r.None? <==> groups.Some? && (UsersGroup in groups.value || OrchestratorGroup in groups.value)
    ensures r.Some? ==> r.value.status == 401
  {
    if groups.None? then Some(Response(401, Text(NoPrincipal)))
    else if UsersGroup !in groups.value && OrchestratorGroup !in groups.value then Some(Response(401, Text(NotInGroup)))
    else None
  }

  /** buildPostRunResponse: always 200; a logged or tweeted notification is
      a success, anything else (the error type) is reported as an error. */
  function BuildPostRunResponse(occasionResponse: OccasionResponse): (r: Response)
    ensures r.status == 200 && r.body.Json?
    ensures var t := occasionResponse.notificationType;
      var key := if t == NotificationTypeLog || t == NotificationTypeTweet then RunSuccessKey else RunErrorKey;
      r.body.json.Keys == {key} && r.body.json[key] == JStr(t)
  {
    var requestResponse := occasionResponse.notificationType;
    if requestResponse == NotificationTypeLog || requestResponse == NotificationTypeTweet then
      Response(200, Json(map[RunSuccessKey := JStr(requestResponse)]))
    else
      Response(200, Json(map[RunErrorKey := JStr(requestResponse)]))
  }

  /** A run whose notification could not be sent still answers 200, with the
      error type under "runError". */
  lemma NotificationErrorIsReported(occasionResponse: OccasionResponse)
    requires occasionResponse.notificationType == NotificationTypeError
    ensures BuildPostRunResponse(occasionResponse)
      == Response(200, Json(map[RunErrorKey := JStr(NotificationTypeError)]))
  {
  }

  // ---------------------------------------------------------------------------
  // The startup reload, as a specification

  /** The stored documents in the order the cursor yields their ids. */
  function Documents(docs: map<ObjectId, Object>, cursor: seq<ObjectId>): (r: seq<Object>)
    requires forall i :: 0 <= i < |cursor| ==> cursor[i] in docs
    ensures |r| == |cursor|
    ensures forall i :: 0 <= i < |cursor| ==> r[i] == docs[cursor[i]]
  {
    seq(|cursor|, i requires 0 <= i < |cursor| => docs[cursor[i]])
  }

  /** The loop of afterCreate: each document is decoded (a failure there is
      outside the try and ends the reload) and scheduled (any failure there is
      logged and the loop goes on). */
  function Reload(s: Jobs, docs: seq<Object>, parse: string -> Option<int>, now: int): Result<Jobs>
    decreases |docs|
  {
    if docs == [] then Ok(s)
    else
      var before :- Reload(s, docs[..|docs| - 1], parse, now);
      var occasion :- Occasions.FromDbo(docs[|docs| - 1]);
      Ok(Schedule(before, occasion, parse, now).jobs)
  }

  /** The id a reload puts in the table for a document: present when the
      document decodes to an occasion with an id and a date that parses. */
  function ScheduledId(doc: Object, parse: string -> Option<int>): (r: Option<string>)
    ensures r.Some? ==> Occasions.FromDbo(doc).Ok? && Occasions.FromDbo(doc).value.id == Some(r.value)
  {
    var o := Occasions.FromDbo(doc);
    if o.Ok? && o.value.id.Some? && parse(o.value.date + TriggerTime).Some? then Some(o.value.id.value) else None
  }

  function ScheduledIdOf(parse: string -> Option<int>): (f: Object -> Option<string>)
    ensures forall doc :: f(doc) == ScheduledId(doc, parse)
  {
    doc => ScheduledId(doc, parse)
  }

  /** The keys that `key` gives to the documents that have one. */
  function Collect(docs: seq<Object>, key: Object -> Option<string>): set<string> {
    set i | 0 <= i < |docs| && key(docs[i]).Some? :: key(docs[i]).value
  }

  lemma CollectOfPrefix(docs: seq<Object>, key: Object -> Option<string>)
    requires docs != []
    ensures Collect(docs, key)
      == Collect(docs[..|docs| - 1], key)
         + (if key(docs[|docs| - 1]).Some? then {key(docs[|docs| - 1]).value} else {})
  {
    var init := docs[..|docs| - 1];
    forall id | id in Collect(docs, key)
      ensures id in Collect(init, key) || (key(docs[|docs| - 1]).Some? && id == key(docs[|docs| - 1]).value)
    {
      var i :| 0 <= i < |docs| && key(docs[i]).Some? && key(docs[i]).value == id;
      if i < |init| {
        assert init[i] == docs[i];
      }
    }
    forall id | id in Collect(init, key)
      ensures id in Collect(docs, key)
    {
      var i :| 0 <= i < |init| && key(init[i]).Some? && key(init[i]).value == id;
      assert docs[i] == init[i];
    }
  }

  /** A reload that gets through every document leaves in the table exactly
      the ids it had plus those of the stored occasions whose date parses; an
      occasion whose date does not parse is skipped. */
  lemma {:induction false} ReloadTable(s: Jobs, docs: seq<Object>, parse: string -> Option<int>, now: int)
    requires Reload(s, docs, parse, now).Ok?
    ensures Reload(s, docs, parse, now).value.table.Keys == s.table.Keys + Collect(docs, ScheduledIdOf(parse))
    decreases |docs|
  {
    if docs != [] {
      ReloadTable(s, docs[..|docs| - 1], parse, now);
      CollectOfPrefix(docs, ScheduledIdOf(parse));
    }
  }

  /** The reload decodes every document, so one it cannot decode ends it. */
  lemma {:induction false} ReloadNeedsDecodableDocuments(s: Jobs, docs: seq<Object>, parse: string -> Option<int>, now: int)
    requires Reload(s, docs, parse, now).Ok?
    ensures forall i :: 0 <= i < |docs| ==> Occasions.FromDbo(docs[i]).Ok?
    decreases |docs|
  {
    if docs != [] {
      ReloadNeedsDecodableDocuments(s, docs[..|docs| - 1], parse, now);
      assert forall i :: 0 <= i < |docs| - 1 ==> docs[..|docs| - 1][i] == docs[i];
    }
  }

  // ---------------------------------------------------------------------------
  // The resource

  class OccasionResource {
    const store: Storage.OccasionStore
    const orchestrator: Orchestrator

    /** The orchestrator deletes through this resource's collection, if through
        any. */
    predicate Valid()
      reads this, orchestrator
    {
      orchestrator.occasionResource == null || orchestrator.occasionResource == store
    }

    constructor (store: Storage.OccasionStore, orchestrator: Orchestrator)
      ensures this.store == store && this.orchestrator == orchestrator
    {
      this.store := store;
      this.orchestrator := orchestrator;
    }

    /** afterCreate: hand the orchestrator this resource, then schedule every
        stored occasion; `cursor` is the order in which find() yields them. */
    method AfterCreate(urls: Urls, cursor: seq<ObjectId>, parse: string -> Option<int>, now: int) returns (r: Result<()>)
      requires forall i :: 0 <= i < |cursor| ==> cursor[i] in store.docs
      modifies orchestrator
      ensures Valid() && orchestrator.occasionResource == store && orchestrator.urls == urls
      ensures orchestrator.calls == old(orchestrator.calls)
      ensures var reload := Reload(old(orchestrator.State()), Documents(store.docs, cursor), parse, now);
        (r.Ok? <==> reload.Ok?)
        && (r.Ok? ==> orchestrator.State() == reload.value)
        && (r.Fail? ==> reload.Fail? && r.fault == reload.fault)
    {
      orchestrator.SetOccasionResource(store, urls);
      ghost var docs := Documents(store.docs, cursor);
      ghost var start := orchestrator.State();
      var i := 0;
      while i < |cursor|
        invariant 0 <= i <= |cursor|
        invariant orchestrator.occasionResource == store && orchestrator.urls == urls
        invariant orchestrator.calls == old(orchestrator.calls)
        invariant Reload(start, docs[..i], parse, now) == Ok(orchestrator.State())
      {
        var dbOccasion := store.docs[cursor[i]];
        assert dbOccasion == docs[i];
        var occasion := Occasions.FromDbo(dbOccasion);
        if occasion.Fail? {
          ReloadStops(start, docs, i, parse, now);
          return Fail(occasion.fault);
        }
        ReloadStep(start, docs, i, orchestrator.State(), parse, now);
        var _ := orchestrator.ScheduleOccasion(occasion.value, parse, now);
        i := i + 1;
      }
      assert docs[..|cursor|] == docs;
      return Ok(());
    }

    /** createOccasion. `newId` is the ObjectId the driver gives the inserted
        document; `parse` and `now` are the orchestrator's date parser and
        clock. */
    method CreateOccasion(groups: Option<set<string>>, json: Option<Object>, newId: ObjectId,
                          parse: string -> Option<int>, now: int) returns (r: Result<Response>)
      modifies store, orchestrator`scheduledOccasions, orchestrator`pending, orchestrator`nextHandle
      ensures ValidateJwt(groups).Some? ==>
        r == Ok(ValidateJwt(groups).value) && store.docs == old(store.docs) && orchestrator.State() == old(orchestrator.State())
      ensures ValidateJwt(groups).None? && json.None? ==>
        r == Ok(Response(400, Text(CreateEmpty))) && store.docs == old(store.docs) && orchestrator.State() == old(orchestrator.State())
      ensures ValidateJwt(groups).None? && json.Some? ==>
        var occasion := Occasions.FromJson(json.value);
        (occasion.Fail? ==>
          r == Fail(occasion.fault) && store.docs == old(store.docs) && orchestrator.State() == old(orchestrator.State()))
        && (occasion.Ok? && occasion.value.id.Some? ==>
          r == Ok(Response(400, Text(CarriesId(occasion.value.id.value))))
          && store.docs == old(store.docs) && orchestrator.State() == old(orchestrator.State()))
        && (occasion.Ok? && occasion.value.id.None? && newId in old(store.docs) ==>
          r == Fail(MongoWrite) && store.docs == old(store.docs) && orchestrator.State() == old(orchestrator.State()))
        && (occasion.Ok? && occasion.value.id.None? && newId !in old(store.docs) ==>
          r == Ok(Response(200, Json(map[Occasions.IdKey := JStr(newId)])))
          && store.docs == old(store.docs)[newId := Occasions.Document(occasion.value)[Storage.DbIdKey := Oid(newId)]]
          && orchestrator.State() == Schedule(old(orchestrator.State()), occasion.value.(id := Some(newId)), parse, now).jobs)
    {
      var denied := ValidateJwt(groups);
      if denied.Some? {
        return Ok(denied.value);
      }
      if json.None? {
        return Ok(Response(400, Text(CreateEmpty)));
      }
      var occasion :- Occasions.FromJson(json.value);
      var dbo := Occasions.ToDbo(occasion).value;
      if Occasions.IdKey in dbo {
        return Ok(Response(400, Text(CarriesId(occasion.id.value))));
      }
      var occasionId :- store.Insert(dbo, newId);
      Occasions.IdOnlyJson(occasionId);
      var jsonResp := Occasions.ToJson(Occasions.Make(Some(occasionId), None, None, None, None, None, None, None).value);
      var response := Response(200, Json(jsonResp.value));
      var scheduled := orchestrator.ScheduleOccasion(occasion.(id := Some(occasionId)), parse, now);
      return Ok(response);
    }

    /** runOccasion: the payload must decode to an occasion with an id; the
        orchestrator then runs it at once and the reply reports how the
        notification went. */
    method RunOccasion(groups: Option<set<string>>, json: Option<Object>, services: Services) returns (r: Result<Response>)
      requires Valid()
      modifies store, orchestrator`scheduledOccasions, orchestrator`pending, orchestrator`calls
      ensures (ValidateJwt(groups).Some? || json.None? || Occasions.FromJson(json.value).Fail?
               || Occasions.FromJson(json.value).value.id.None?) ==>
        store.docs == old(store.docs) && orchestrator.State() == old(orchestrator.State())
        && orchestrator.calls == old(orchestrator.calls)
      ensures ValidateJwt(groups).Some? ==> r == Ok(ValidateJwt(groups).value)
      ensures ValidateJwt(groups).None? && json.None? ==> r == Ok(Response(400, Text(RunEmpty)))
      ensures ValidateJwt(groups).None? && json.Some? ==>
        var occasion := Occasions.FromJson(json.value);
        (occasion.Fail? ==> r == Fail(occasion.fault))
        && (occasion.Ok? && occasion.value.id.None? ==> r == Ok(Response(400, Text(RunNeedsId))))
        && (occasion.Ok? && occasion.value.id.Some? && occasion.value.id.value !in old(orchestrator.scheduledOccasions) ==>
          r == Fail(NullPointer) && store.docs == old(store.docs) && orchestrator.State() == old(orchestrator.State()))
        && (occasion.Ok? && occasion.value.id.Some? && occasion.value.id.value in old(orchestrator.scheduledOccasions) ==>
          var run := Workflow(occasion.value, orchestrator.urls, services);
          orchestrator.State() == Cancel(old(orchestrator.State()), occasion.value.id.value).jobs
          && orchestrator.calls == old(orchestrator.calls) + run.calls
          && store.docs == (if run.outcome.Ok? && orchestrator.occasionResource == store
                            then old(store.docs) - {occasion.value.id.value} else old(store.docs))
          && (run.outcome.Fail? ==> r == Fail(run.outcome.fault))
          && (run.outcome.Ok? ==> r == Ok(BuildPostRunResponse(run.outcome.value))))
    {
      var denied := ValidateJwt(groups);
      if denied.Some? {
        return Ok(denied.value);
      }
      if json.None? {
        return Ok(Response(400, Text(RunEmpty)));
      }
      var occasion :- Occasions.FromJson(json.value);
      var dbo := Occasions.ToDbo(occasion).value;
      if Occasions.IdKey !in dbo {
        return Ok(Response(400, Text(RunNeedsId)));
      }
      var occasionResponse :- orchestrator.RunOccasion(occasion, services);
      return Ok(BuildPostRunResponse(occasionResponse));
    }

    /** updateOccasion: the stored record is updated with $set first; then
        the id's timer is cancelled and the updated record rescheduled. */
    method UpdateOccasion(groups: Option<set<string>>, id: string, json: Option<Object>,
                          parse: string -> Option<int>, now: int) returns (r: Result<Response>)
      modifies store, orchestrator`scheduledOccasions, orchestrator`pending, orchestrator`nextHandle
      ensures ValidateJwt(groups).Some? ==>
        r == Ok(ValidateJwt(groups).value) && store.docs == old(store.docs) && orchestrator.State() == old(orchestrator.State())
      ensures ValidateJwt(groups).None? && (!IsValidObjectId(id) || json.None? || json.value == map[]) ==>
        r == Ok(Response(400, Text(InvalidId))) && store.docs == old(store.docs) && orchestrator.State() == old(orchestrator.State())
      ensures ValidateJwt(groups).None? && IsValidObjectId(id) && json.Some? && json.value != map[] ==>
        var updated := Occasions.FromJson(json.value);
        var oid := NewObjectId(id);
        (updated.Fail? ==>
          r == Fail(updated.fault) && store.docs == old(store.docs) && orchestrator.State() == old(orchestrator.State()))
        && (updated.Ok? && oid in old(store.docs) && (Occasions.IdKey !in Occasions.Document(updated.value) || updated.value.id == Some(oid)) ==>
          store.docs == old(store.docs)[oid := Storage.ApplySet(old(store.docs)[oid], Occasions.Document(updated.value))])
        && (updated.Ok? && oid in old(store.docs)
            && Occasions.IdKey in Occasions.Document(updated.value) && updated.value.id != Some(oid) ==>
          r == Fail(MongoWrite) && store.docs == old(store.docs) && orchestrator.State() == old(orchestrator.State()))
        && (updated.Ok? && oid !in old(store.docs) ==>
          r == Fail(NullPointer) && store.docs == old(store.docs)
          && orchestrator.State() == Cancel(old(orchestrator.State()), id).jobs)
        && (updated.Ok? && id !in old(orchestrator.scheduledOccasions) ==> r.Fail? && orchestrator.State() == old(orchestrator.State()))
        && (updated.Ok? && oid in old(store.docs) && (Occasions.IdKey !in Occasions.Document(updated.value) || updated.value.id == Some(oid))
            && id in old(orchestrator.scheduledOccasions) ==>
          var stored := Occasions.FromDbo(store.docs[oid]);
          var cancelled := Cancel(old(orchestrator.State()), id).jobs;
          (stored.Fail? ==> r == Fail(stored.fault) && orchestrator.State() == cancelled)
          && (stored.Ok? ==>
            var step := Schedule(cancelled, stored.value, parse, now);
            orchestrator.State() == step.jobs
            && (step.outcome == Ok(()) ==> r == Ok(Response(200, NoBody)))
            && (step.outcome == Fail(Parse) ==> r == Ok(Response(400, Text(InvalidDate))))
            && (step.outcome == Fail(NullPointer) ==> r == Fail(NullPointer))))
    {
      var denied := ValidateJwt(groups);
      if denied.Some? {
        return Ok(denied.value);
      }
      if !IsValidObjectId(id) || json.None? || json.value == map[] {
        return Ok(Response(400, Text(InvalidId)));
      }
      var updatedOccasion :- Occasions.FromJson(json.value);
      var updateObject := Occasions.ToDbo(updatedOccasion).value;
      var updatedObject :- store.FindAndModify(NewObjectId(id), updateObject);
      var cancelled :- orchestrator.CancelOccasion(id);
      if updatedObject.None? {
        return Fail(NullPointer);
      }
      var occasion :- Occasions.FromDbo(updatedObject.value);
      var scheduled := orchestrator.ScheduleOccasion(occasion, parse, now);
      if scheduled == Fail(Parse) {
        return Ok(Response(400, Text(InvalidDate)));
      }
      var _ :- scheduled;
      return Ok(Response(200, NoBody));
    }

    /** deleteOccasion(ObjectId): true exactly when one record was removed. */
    method DeleteRecord(idObject: Option<ObjectId>) returns (deleted: bool)
      modifies store
      ensures deleted <==> idObject.Some? && idObject.value in old(store.docs)
      ensures store.docs == if idObject.Some? then old(store.docs) - {idObject.value} else old(store.docs)
    {
      var n := store.Remove(idObject);
      deleted := 1 == n;
    }

    /** deleteOccasion(String): the record must go first; only then is the
        timer cancelled, and an id with no timer makes that throw. */
    method DeleteOccasion(groups: Option<set<string>>, id: Option<string>) returns (r: Result<Response>)
      modifies store, orchestrator`scheduledOccasions, orchestrator`pending
      ensures ValidateJwt(groups).Some? ==>
        r == Ok(ValidateJwt(groups).value) && store.docs == old(store.docs) && orchestrator.State() == old(orchestrator.State())
      ensures ValidateJwt(groups).None? && (id.None? || id.value == "" || !IsValidObjectId(id.value)) ==>
        r == Ok(Response(400, Text(InvalidId))) && store.docs == old(store.docs) && orchestrator.State() == old(orchestrator.State())
      ensures ValidateJwt(groups).None? && id.Some? && IsValidObjectId(id.value) ==>
        var oid := NewObjectId(id.value);
        (oid !in old(store.docs) ==>
          r == Ok(Response(400, Text(DeletionFailed))) && store.docs == old(store.docs)
          && orchestrator.State() == old(orchestrator.State()))
        && (oid in old(store.docs) ==>
          store.docs == old(store.docs) - {oid}
          && var step := Cancel(old(orchestrator.State()), id.value);
          orchestrator.State() == step.jobs
          && r == (if step.outcome.Ok? then Ok(Response(200, NoBody)) else Fail(step.outcome.fault)))
    {
      var denied := ValidateJwt(groups);
      if denied.Some? {
        return Ok(denied.value);
      }
      if id.None? || id.value == "" || !IsValidObjectId(id.value) {
        return Ok(Response(400, Text(InvalidId)));
      }
      var deleted := DeleteRecord(Some(NewObjectId(id.value)));
      if !deleted {
        return Ok(Response(400, Text(DeletionFailed)));
      }
      var cancelled :- orchestrator.CancelOccasion(id.value);
      return Ok(Response(200, NoBody));
    }
  }

  /** One more decoded document schedules its occasion on top of the prefix. */
  lemma ReloadStep(s: Jobs, docs: seq<Object>, i: nat, before: Jobs, parse: string -> Option<int>, now: int)
    requires i < |docs|
    requires Reload(s, docs[..i], parse, now) == Ok(before)
    requires Occasions.FromDbo(docs[i]).Ok?
    ensures Reload(s, docs[..i + 1], parse, now) == Ok(Schedule(before, Occasions.FromDbo(docs[i]).value, parse, now).jobs)
  {
    assert docs[..i + 1][..i] == docs[..i];
  }

  /** A document the reload cannot decode ends it with that document's fault. */
  lemma ReloadStops(s: Jobs, docs: seq<Object>, i: nat, parse: string -> Option<int>, now: int)
    requires i < |docs|
    requires Reload(s, docs[..i], parse, now).Ok?
    requires Occasions.FromDbo(docs[i]).Fail?
    ensures Reload(s, docs, parse, now) == Fail(Occasions.FromDbo(docs[i]).fault)
  {
    assert docs[..i + 1][..i] == docs[..i];
    assert Reload(s, docs[..i + 1], parse, now) == Fail(Occasions.FromDbo(docs[i]).fault);
    ReloadFailureSticks(s, docs, i + 1, parse, now);
  }

  /** Once the reload has failed on a prefix it fails the same way on the
      whole list. */
  lemma {:induction false} ReloadFailureSticks(s: Jobs, docs: seq<Object>, k: nat, parse: string -> Option<int>, now: int)
    requires k <= |docs|
    requires Reload(s, docs[..k], parse, now).Fail?
    ensures Reload(s, docs, parse, now) == Reload(s, docs[..k], parse, now)
    decreases |docs| - k
  {
    if k == |docs| {
      assert docs[..k] == docs;
    } else {
      assert docs[..k + 1][..k] == docs[..k];
      ReloadFailureSticks(s, docs, k + 1, parse, now);
    }
  }
}
