/// The occasion record of the occasion service (Occasion.java): its
/// contributions, the normalising setters, the constructors from a JSON object
/// and from a database document, the two encoders and equality.
module Occasions {
  import opened Doc

  const IdKey := "_id"
  const DateKey := "date"
  const GroupIdKey := "groupId"
  const IntervalKey := "interval"
  const NameKey := "name"
  const OrganizerIdKey := "organizerId"
  const RecipientIdKey := "recipientId"
  const ContributionsKey := "contributions"
  const AmountKey := "amount"
  const UserIdKey := "userId"

  /** One member's contribution; the Java double amount is a real here. */
  datatype Contribution = Contribution(userId: Option<string>, amount: real)

  /** An occasion after construction: every string field is non-null (the
      setters turn null into ""), the id may be absent. */
  datatype Occasion = Occasion(
    id: Option<ObjectId>,
    date: string,
    groupId: string,
    interval: string,
    name: string,
    organizerId: string,
    recipientId: string,
    contributions: seq<Contribution>)

  predicate AllUserIds(cs: seq<Contribution>) {
    forall i :: 0 <= i < |cs| ==> cs[i].userId.Some?
  }

  // ---------------------------------------------------------------------------
  // Contribution: constructors and encoders

  /** Contribution(JsonObject): a missing amount is 0, a missing or non-string
      userId is null; an amount that is not a number is a cast error. */
  function ContributionFromJson(json: Object): (r: Result<Contribution>)
    ensures r.Ok? <==> AmountKey !in json || json[AmountKey].JNum?
    ensures r.Ok? && AmountKey !in json ==> r.value.amount == 0.0
    ensures r.Ok? && !(UserIdKey in json && json[UserIdKey].JStr?) ==> r.value.userId.None?
    ensures r.Ok? && UserIdKey in json && json[UserIdKey].JStr? ==> r.value.userId == Some(json[UserIdKey].s)
  {
    var amount :-
      if AmountKey !in json then Ok(0.0)
      else if json[AmountKey].JNum? then Ok(json[AmountKey].n)
      else Fail(ClassCast);
    Ok(Contribution(GetStringOr(json, UserIdKey, None), amount))
  }

  /** Contribution(DBObject): the amount is unboxed from a Double, so a missing
      amount is a null dereference. */
  function ContributionFromDbo(dbo: Object): (r: Result<Contribution>)
    ensures r.Ok? <==> CastString(dbo, UserIdKey).Ok? && AmountKey in dbo && dbo[AmountKey].JNum?
    ensures CastString(dbo, UserIdKey).Fail? ==> r == Fail(ClassCast)
    ensures CastString(dbo, UserIdKey).Ok? && (AmountKey !in dbo || dbo[AmountKey].JNull?) ==> r == Fail(NullPointer)
    ensures r.Ok? ==> r.value == Contribution(CastString(dbo, UserIdKey).value, dbo[AmountKey].n)
  {
    var userId :- CastString(dbo, UserIdKey);
    var amount :-
      if AmountKey !in dbo || dbo[AmountKey].JNull? then Fail(NullPointer)
      else if dbo[AmountKey].JNum? then Ok(dbo[AmountKey].n)
      else Fail(ClassCast);
    Ok(Contribution(userId, amount))
  }

  /** Contribution.toJson: JsonObjectBuilder.add refuses a null userId. */
  function ContributionToJson(c: Contribution): (r: Result<Object>)
    ensures r.Ok? <==> c.userId.Some?
  {
    if c.userId.None? then Fail(NullPointer)
    else Ok(map[AmountKey := JNum(c.amount), UserIdKey := JStr(c.userId.value)])
  }

  /** Contribution.toDbo: a null userId is stored as null. */
  function ContributionToDbo(c: Contribution): (r: Object)
    ensures r.Keys == {AmountKey, UserIdKey}
    ensures r[AmountKey] == JNum(c.amount)
    ensures c.userId.Some? ==> r[UserIdKey] == JStr(c.userId.value)
    ensures c.userId.None? ==> r[UserIdKey] == JNull
  {
    map[AmountKey := JNum(c.amount),
        UserIdKey := if c.userId.Some? then JStr(c.userId.value) else JNull]
  }

  lemma ContributionJsonRoundTrip(c: Contribution)
    requires c.userId.Some?
    ensures ContributionToJson(c).Ok?
    ensures ContributionFromJson(ContributionToJson(c).value) == Ok(c)
  {
  }

  lemma ContributionDboRoundTrip(c: Contribution)
    ensures ContributionFromDbo(ContributionToDbo(c)) == Ok(c)
  {
  }

  // ---------------------------------------------------------------------------
  // Contribution lists: the specifications of the list converters

  /** Decoding of one element of a JSON contributions array. */
  function ElementFromJson(v: Value): (r: Result<Contribution>)
    ensures v.JObj? ==> r == ContributionFromJson(v.fields)
    ensures !v.JObj? ==> r == Fail(ClassCast)
  {
    if v.JObj? then ContributionFromJson(v.fields) else Fail(ClassCast)
  }

  /** Decoding of one element of a stored contributions list: a null element
      passes the cast and fails on the first field read. */
  function ElementFromDbo(v: Value): (r: Result<Contribution>)
    ensures v.JNull? ==> r == Fail(NullPointer)
    ensures v.JObj? ==> r == ContributionFromDbo(v.fields)
    ensures !v.JObj? && !v.JNull? ==> r == Fail(ClassCast)
  {
    if v.JNull? then Fail(NullPointer)
    else if v.JObj? then ContributionFromDbo(v.fields)
    else Fail(ClassCast)
  }

  /** The loop of Contribution.jsonArrayToList: elements are decoded in order;
      the first element that fails decides the fault. */
  function ElementsFromJson(items: seq<Value>): (r: Result<seq<Contribution>>)
    ensures r.Ok? ==> |r.value| == |items|
  {
    if |items| == 0 then Ok([])
    else
      var init :- ElementsFromJson(items[..|items| - 1]);
      var c :- ElementFromJson(items[|items| - 1]);
      Ok(init + [c])
  }

  /** The loop of Contribution.dbListToList. */
  function ElementsFromDbo(items: seq<Value>): (r: Result<seq<Contribution>>)
    ensures r.Ok? ==> |r.value| == |items|
  {
    if |items| == 0 then Ok([])
    else
      var init :- ElementsFromDbo(items[..|items| - 1]);
      var c :- ElementFromDbo(items[|items| - 1]);
      Ok(init + [c])
  }

  /** Contribution.jsonArrayToList: after the loop, the exit log line is built
      with listToString, whose toJson refuses a null userId. */
  function ContributionsFromJson(items: seq<Value>): (r: Result<seq<Contribution>>)
    ensures ElementsFromJson(items).Fail? ==> r == ElementsFromJson(items)
    ensures ElementsFromJson(items).Ok? && !AllUserIds(ElementsFromJson(items).value) ==> r == Fail(NullPointer)
    ensures r.Ok? <==> ElementsFromJson(items).Ok? && AllUserIds(ElementsFromJson(items).value)
    ensures r.Ok? ==> r.value == ElementsFromJson(items).value
  {
    var cs :- ElementsFromJson(items);
    if AllUserIds(cs) then Ok(cs) else Fail(NullPointer)
  }

  /** Contribution.dbListToList, with the same exit log line. */
  function ContributionsFromDbo(items: seq<Value>): (r: Result<seq<Contribution>>)
    ensures ElementsFromDbo(items).Fail? ==> r == ElementsFromDbo(items)
    ensures ElementsFromDbo(items).Ok? && !AllUserIds(ElementsFromDbo(items).value) ==> r == Fail(NullPointer)
    ensures r.Ok? <==> ElementsFromDbo(items).Ok? && AllUserIds(ElementsFromDbo(items).value)
    ensures r.Ok? ==> r.value == ElementsFromDbo(items).value
  {
    var cs :- ElementsFromDbo(items);
    if AllUserIds(cs) then Ok(cs) else Fail(NullPointer)
  }

  /** Contribution.listToJsonArray: fails on the first null userId. */
  function ContributionsToJson(cs: seq<Contribution>): (r: Result<seq<Value>>)
    ensures r.Ok? <==> AllUserIds(cs)
    ensures r.Ok? ==> |r.value| == |cs|
    ensures r.Ok? ==> forall i :: 0 <= i < |cs| ==> r.value[i] == JObj(ContributionToJson(cs[i]).value)
  {
    if AllUserIds(cs) then
      Ok(seq(|cs|, i requires 0 <= i < |cs| && AllUserIds(cs) => JObj(ContributionToJson(cs[i]).value)))
    else Fail(NullPointer)
  }

  /** Contribution.listToDBList. */
  function ContributionsToDbo(cs: seq<Contribution>): (r: seq<Value>)
    ensures |r| == |cs|
    ensures forall i :: 0 <= i < |cs| ==> r[i] == JObj(ContributionToDbo(cs[i]))
  {
    seq(|cs|, i requires 0 <= i < |cs| => JObj(ContributionToDbo(cs[i])))
  }

  /** A failure in a prefix of the array is the failure of the whole loop. */
  lemma {:induction false} JsonPrefixFailure(items: seq<Value>, j: nat)
    requires j <= |items|
    requires ElementsFromJson(items[..j]).Fail?
    ensures ElementsFromJson(items) == ElementsFromJson(items[..j])
    decreases |items|
  {
    if j < |items| {
      var n := |items|;
      assert items[..n - 1][..j] == items[..j];
      JsonPrefixFailure(items[..n - 1], j);
    } else {
      assert items[..j] == items;
    }
  }

  lemma {:induction false} DboPrefixFailure(items: seq<Value>, j: nat)
    requires j <= |items|
    requires ElementsFromDbo(items[..j]).Fail?
    ensures ElementsFromDbo(items) == ElementsFromDbo(items[..j])
    decreases |items|
  {
    if j < |items| {
      var n := |items|;
      assert items[..n - 1][..j] == items[..j];
      DboPrefixFailure(items[..n - 1], j);
    } else {
      assert items[..j] == items;
    }
  }

  /** The loop succeeds exactly when every element decodes, and then holds
      each element's decoding at its own position. */
  lemma {:induction false} ElementsFromJsonAt(items: seq<Value>)
    ensures ElementsFromJson(items).Ok? <==> forall i :: 0 <= i < |items| ==> ElementFromJson(items[i]).Ok?
    ensures ElementsFromJson(items).Ok? ==>
      forall i :: 0 <= i < |items| ==> ElementsFromJson(items).value[i] == ElementFromJson(items[i]).value
    decreases |items|
  {
    if |items| > 0 {
      var n := |items|;
      ElementsFromJsonAt(items[..n - 1]);
      assert forall i :: 0 <= i < n - 1 ==> items[..n - 1][i] == items[i];
    }
  }

  /** A JSON contributions element that jsonArrayToList accepts: an object
      whose amount is absent or a number and whose userId is a string. */
  predicate Decodable(v: Value) {
    v.JObj? && (AmountKey !in v.fields || v.fields[AmountKey].JNum?)
    && UserIdKey in v.fields && v.fields[UserIdKey].JStr?
  }

  /** jsonArrayToList returns exactly when every element is decodable; an
      element without a string userId passes the loop and fails in the log. */
  lemma ContributionsFromJsonAccepts(items: seq<Value>)
    ensures ContributionsFromJson(items).Ok? <==> forall i :: 0 <= i < |items| ==> Decodable(items[i])
  {
    ElementsFromJsonAt(items);
    if ElementsFromJson(items).Ok? {
      var cs := ElementsFromJson(items).value;
      assert AllUserIds(cs) <==> forall i :: 0 <= i < |items| ==> Decodable(items[i]);
    } else {
      var i :| 0 <= i < |items| && ElementFromJson(items[i]).Fail?;
      assert !Decodable(items[i]);
    }
  }

  /** Decoding an encoded list gives the list back, in order. */
  lemma {:induction false} ContributionsJsonRoundTrip(cs: seq<Contribution>)
    requires AllUserIds(cs)
    ensures ContributionsFromJson(ContributionsToJson(cs).value) == Ok(cs)
    decreases |cs|
  {
    var items := ContributionsToJson(cs).value;
    if |cs| > 0 {
      var n := |cs|;
      assert AllUserIds(cs[..n - 1]);
      var initItems := ContributionsToJson(cs[..n - 1]).value;
      assert items[..n - 1] == initItems;
      ContributionsJsonRoundTrip(cs[..n - 1]);
      ContributionJsonRoundTrip(cs[n - 1]);
      assert cs[..n - 1] + [cs[n - 1]] == cs;
      assert ElementsFromJson(items) == Ok(cs);
    }
  }

  /** The loop of dbListToList reads back every stored list. */
  lemma {:induction false} ElementsDboRoundTrip(cs: seq<Contribution>)
    ensures ElementsFromDbo(ContributionsToDbo(cs)) == Ok(cs)
    decreases |cs|
  {
    var items := ContributionsToDbo(cs);
    if |cs| > 0 {
      var n := |cs|;
      assert items[..n - 1] == ContributionsToDbo(cs[..n - 1]);
      ElementsDboRoundTrip(cs[..n - 1]);
      ContributionDboRoundTrip(cs[n - 1]);
      assert cs[..n - 1] + [cs[n - 1]] == cs;
    }
  }

  /** A stored list reads back when every userId is set; one null userId
      makes the exit log line throw. */
  lemma ContributionsDboRoundTrip(cs: seq<Contribution>)
    ensures ContributionsFromDbo(ContributionsToDbo(cs)) == if AllUserIds(cs) then Ok(cs) else Fail(NullPointer)
  {
    ElementsDboRoundTrip(cs);
  }

  // ---------------------------------------------------------------------------
  // Contribution lists: the converters as the source runs them, loop by loop

  method JsonArrayToList(items: seq<Value>) returns (r: Result<seq<Contribution>>)
    ensures r == ContributionsFromJson(items)
  {
    var contributions: seq<Contribution> := [];
    for i := 0 to |items|
      invariant ElementsFromJson(items[..i]) == Ok(contributions)
    {
      assert items[..i + 1][..i] == items[..i];
      var c := ElementFromJson(items[i]);
      if c.Fail? {
        JsonPrefixFailure(items, i + 1);
        return Fail(c.fault);
      }
      contributions := contributions + [c.value];
    }
    assert items[..|items|] == items;
    // listToString for the exit log: each element's toJson, in order
    var logged := ListToJsonArray(contributions);
    if logged.Fail? {
      return Fail(NullPointer);
    }
    return Ok(contributions);
  }

  method DbListToList(items: seq<Value>) returns (r: Result<seq<Contribution>>)
    ensures r == ContributionsFromDbo(items)
  {
    var contributions: seq<Contribution> := [];
    for i := 0 to |items|
      invariant ElementsFromDbo(items[..i]) == Ok(contributions)
    {
      assert items[..i + 1][..i] == items[..i];
      var c := ElementFromDbo(items[i]);
      if c.Fail? {
        DboPrefixFailure(items, i + 1);
        return Fail(c.fault);
      }
      contributions := contributions + [c.value];
    }
    assert items[..|items|] == items;
    var logged := ListToJsonArray(contributions);
    if logged.Fail? {
      return Fail(NullPointer);
    }
    return Ok(contributions);
  }

  method ListToJsonArray(cs: seq<Contribution>) returns (r: Result<seq<Value>>)
    ensures r == ContributionsToJson(cs)
  {
    var items: seq<Value> := [];
    for i := 0 to |cs|
      invariant AllUserIds(cs[..i])
      invariant |items| == i
      invariant forall k :: 0 <= k < i ==> items[k] == JObj(ContributionToJson(cs[k]).value)
    {
      var c := ContributionToJson(cs[i]);
      if c.Fail? {
        return Fail(NullPointer);
      }
      items := items + [JObj(c.value)];
    }
    assert cs[..|cs|] == cs;
    assert items == ContributionsToJson(cs).value;
    return Ok(items);
  }

  method ListToDbList(cs: seq<Contribution>) returns (r: seq<Value>)
    ensures r == ContributionsToDbo(cs)
  {
    r := [];
    for i := 0 to |cs|
      invariant |r| == i
      invariant forall k :: 0 <= k < i ==> r[k] == JObj(ContributionToDbo(cs[k]))
    {
      r := r + [JObj(ContributionToDbo(cs[i]))];
    }
  }

  // ---------------------------------------------------------------------------
  // Contribution equality and listsEqual

  /** Contribution.equals: same userId and same amount; the receiver's userId
      is dereferenced. */
  function ContributionEquals(a: Contribution, b: Contribution): (r: Result<bool>)
    ensures a.userId.Some? ==> r == Ok(a == b)
    ensures a.userId.None? ==> r.Fail?
  {
    if a.userId.None? then Fail(NullPointer)
    else Ok(b.userId == a.userId && a.amount == b.amount)
  }

  /** list.contains(c): c.equals(e) for each element in order until one holds. */
  function Contains(list: seq<Contribution>, c: Contribution): (r: Result<bool>)
    ensures c.userId.Some? ==> r == Ok(c in list)
    ensures c.userId.None? ==> r == if |list| == 0 then Ok(false) else Fail(NullPointer)
  {
    if |list| == 0 then Ok(false)
    else
      var eq :- ContributionEquals(c, list[0]);
      if eq then Ok(true) else Contains(list[1..], c)
  }

  /** One loop of listsEqual: every element of xs is contained in ys. */
  function AllContained(xs: seq<Contribution>, ys: seq<Contribution>): (r: Result<bool>)
    ensures AllUserIds(xs) ==> r == Ok(forall x :: x in xs ==> x in ys)
  {
    if |xs| == 0 then Ok(true)
    else
      var found :- Contains(ys, xs[0]);
      if !found then Ok(false)
      else
        assert AllUserIds(xs) ==> AllUserIds(xs[1..]);
        AllContained(xs[1..], ys)
  }

  /** Contribution.listsEqual: mutual containment. */
  function ListsEqual(l1: seq<Contribution>, l2: seq<Contribution>): (r: Result<bool>)
    ensures AllUserIds(l1) && AllUserIds(l2) ==>
      r == Ok((forall x :: x in l1 ==> x in l2) && (forall x :: x in l2 ==> x in l1))
  {
    var first :- AllContained(l1, l2);
    if !first then Ok(false) else AllContained(l2, l1)
  }

  /** listsEqual ignores order and multiplicity: lists with the same elements
      compare alike against any third list. */
  lemma ListsEqualIgnoresOrder(l1: seq<Contribution>, l1': seq<Contribution>, l2: seq<Contribution>)
    requires AllUserIds(l1) && AllUserIds(l1') && AllUserIds(l2)
    requires forall x :: x in l1 <==> x in l1'
    ensures ListsEqual(l1, l2) == ListsEqual(l1', l2)
  {
  }

  // ---------------------------------------------------------------------------
  // Occasion: setters and constructors

  /** The string setters: null and "" both become "", any other value is kept. */
  function Normalize(s: Option<string>): (r: string)
    ensures r == "" <==> s.None? || s.value == ""
    ensures s.Some? ==> r == s.value
  {
    if s.None? || s.value == "" then "" else s.value
  }

  /** setId(String): only a valid ObjectId string replaces the current id. */
  function SetIdFromString(current: Option<ObjectId>, s: Option<string>): (r: Option<ObjectId>)
    ensures s.Some? && IsValidObjectId(s.value) ==> r == Some(NewObjectId(s.value))
    ensures !(s.Some? && IsValidObjectId(s.value)) ==> r == current
  {
    if s.Some? && s.value != "" && IsValidObjectId(s.value) then Some(NewObjectId(s.value))
    else current
  }

  /** setId(ObjectId): a null id is ignored. */
  function SetIdFromObjectId(current: Option<ObjectId>, id: Option<ObjectId>): (r: Option<ObjectId>)
    ensures id.None? ==> r == current
    ensures id.Some? ==> r == id
  {
    if id.Some? then id else current
  }

  /** setContributions(JsonValue): an absent value gives a fresh empty list,
      anything but an array is a cast error. */
  function ContributionsFromJsonValue(v: Option<Value>): (r: Result<seq<Contribution>>)
    ensures v.None? ==> r == Ok([])
    ensures v.Some? && !v.value.JArr? ==> r == Fail(ClassCast)
    ensures v.Some? && v.value.JArr? ==> r == ContributionsFromJson(v.value.items)
  {
    if v.None? then Ok([])
    else if v.value.JArr? then ContributionsFromJson(v.value.items)
    else Fail(ClassCast)
  }

  /** setContributions(List): a null or empty list becomes a fresh empty list. */
  function SetContributions(cs: Option<seq<Contribution>>): (r: seq<Contribution>)
    ensures cs.None? ==> r == []
    ensures cs.Some? ==> r == cs.value
  {
    if cs.None? || |cs.value| < 1 then [] else cs.value
  }

  function Lookup(o: Object, key: string): Option<Value> {
    if key in o then Some(o[key]) else None
  }

  /** Occasion(JsonObject). */
  function FromJson(json: Object): (r: Result<Occasion>)
    ensures r.Ok? ==> r.value.date == Normalize(GetStringOr(json, DateKey, None))
    ensures r.Ok? ==> r.value.id == SetIdFromString(None, GetStringOr(json, IdKey, None))
    ensures r.Ok? ==> r.value.groupId == Normalize(GetStringOr(json, GroupIdKey, None))
    ensures r.Ok? ==> r.value.interval == Normalize(GetStringOr(json, IntervalKey, None))
    ensures r.Ok? ==> r.value.name == Normalize(GetStringOr(json, NameKey, None))
    ensures r.Ok? ==> r.value.organizerId == Normalize(GetStringOr(json, OrganizerIdKey, None))
    ensures r.Ok? ==> r.value.recipientId == Normalize(GetStringOr(json, RecipientIdKey, None))
    ensures r.Ok? <==> ContributionsFromJsonValue(Lookup(json, ContributionsKey)).Ok?
    ensures r.Ok? ==> r.value.contributions == ContributionsFromJsonValue(Lookup(json, ContributionsKey)).value
    ensures r.Fail? ==> r.fault == ContributionsFromJsonValue(Lookup(json, ContributionsKey)).fault
    ensures ContributionsKey !in json ==> r.Ok? && r.value.contributions == []
    ensures r.Ok? ==> AllUserIds(r.value.contributions)
  {
    var contributions :- ContributionsFromJsonValue(Lookup(json, ContributionsKey));
    Ok(Occasion(
      SetIdFromString(None, GetStringOr(json, IdKey, None)),
      Normalize(GetStringOr(json, DateKey, None)),
      Normalize(GetStringOr(json, GroupIdKey, None)),
      Normalize(GetStringOr(json, IntervalKey, None)),
      Normalize(GetStringOr(json, NameKey, None)),
      Normalize(GetStringOr(json, OrganizerIdKey, None)),
      Normalize(GetStringOr(json, RecipientIdKey, None)),
      contributions))
  }

  /** (BasicDBList) dbo.get(key), with ListUtils.emptyIfNull. */
  function CastList(dbo: Object, key: string): (r: Result<seq<Value>>)
    ensures key !in dbo ==> r == Ok([])
  {
    if key !in dbo || dbo[key].JNull? then Ok([])
    else if dbo[key].JArr? then Ok(dbo[key].items)
    else Fail(ClassCast)
  }

  /** Occasion(DBObject): the fields are read in the source's order. */
  function FromDbo(dbo: Object): (r: Result<Occasion>)
    ensures r.Ok? ==> r.value.id == (if IdKey in dbo && dbo[IdKey].Oid? then Some(dbo[IdKey].id) else None)
    ensures r.Ok? <==>
      CastObjectId(dbo, IdKey).Ok? && CastString(dbo, DateKey).Ok? && CastString(dbo, GroupIdKey).Ok?
      && CastString(dbo, IntervalKey).Ok? && CastString(dbo, NameKey).Ok?
      && CastString(dbo, OrganizerIdKey).Ok? && CastList(dbo, ContributionsKey).Ok?
      && ContributionsFromDbo(CastList(dbo, ContributionsKey).value).Ok?
      && CastString(dbo, RecipientIdKey).Ok?
    ensures r.Ok? ==> r.value.date == Normalize(CastString(dbo, DateKey).value)
    ensures r.Ok? ==> r.value.groupId == Normalize(CastString(dbo, GroupIdKey).value)
    ensures r.Ok? ==> r.value.interval == Normalize(CastString(dbo, IntervalKey).value)
    ensures r.Ok? ==> r.value.name == Normalize(CastString(dbo, NameKey).value)
    ensures r.Ok? ==> r.value.organizerId == Normalize(CastString(dbo, OrganizerIdKey).value)
    ensures r.Ok? ==> r.value.recipientId == Normalize(CastString(dbo, RecipientIdKey).value)
    ensures r.Ok? ==> r.value.contributions == ContributionsFromDbo(CastList(dbo, ContributionsKey).value).value
    ensures r.Ok? ==> AllUserIds(r.value.contributions)
  {
    var id :- CastObjectId(dbo, IdKey);
    var date :- CastString(dbo, DateKey);
    var groupId :- CastString(dbo, GroupIdKey);
    var interval :- CastString(dbo, IntervalKey);
    var name :- CastString(dbo, NameKey);
    var organizerId :- CastString(dbo, OrganizerIdKey);
    var list :- CastList(dbo, ContributionsKey);
    var contributions :- ContributionsFromDbo(list);
    var recipientId :- CastString(dbo, RecipientIdKey);
    Ok(Occasion(
      SetIdFromObjectId(None, id),
      Normalize(date),
      Normalize(groupId),
      Normalize(interval),
      Normalize(name),
      Normalize(organizerId),
      Normalize(recipientId),
      SetContributions(Some(contributions))))
  }

  /** The eight-argument constructor: its log line runs listToString over the
      contributions, so a contribution with a null userId throws. */
  function Make(
    id: Option<ObjectId>, date: Option<string>, groupId: Option<string>,
    interval: Option<string>, name: Option<string>, organizerId: Option<string>,
    recipientId: Option<string>, contributions: Option<seq<Contribution>>): (r: Result<Occasion>)
    ensures r.Ok? <==> contributions.None? || AllUserIds(contributions.value)
    ensures r.Fail? ==> r.fault == NullPointer
    ensures r.Ok? ==> r.value.id == id
    ensures r.Ok? ==> r.value.date == Normalize(date) && r.value.groupId == Normalize(groupId)
    ensures r.Ok? ==> r.value.interval == Normalize(interval) && r.value.name == Normalize(name)
    ensures r.Ok? ==> r.value.organizerId == Normalize(organizerId) && r.value.recipientId == Normalize(recipientId)
    ensures r.Ok? ==> r.value.contributions == SetContributions(contributions)
    ensures r.Ok? ==> (r.value.date == "" <==> date.None? || date.value == "")
    ensures r.Ok? ==> (r.value.contributions == [] <==> contributions.None? || contributions.value == [])
  {
    if contributions.Some? && !AllUserIds(contributions.value) then Fail(NullPointer)
    else
      Ok(Occasion(
        SetIdFromObjectId(None, id), Normalize(date), Normalize(groupId),
        Normalize(interval), Normalize(name), Normalize(organizerId),
        Normalize(recipientId), SetContributions(contributions)))
  }

  // ---------------------------------------------------------------------------
  // Occasion: encoders

  /** The document carries the string under the key when it is non-empty and
      has no such key otherwise. */
  predicate Holds(d: Object, key: string, value: string) {
    (key in d <==> value != "") && (key in d ==> d[key] == JStr(value))
  }

  predicate HoldsStrings(d: Object, o: Occasion) {
    Holds(d, DateKey, o.date) && Holds(d, GroupIdKey, o.groupId)
    && Holds(d, IntervalKey, o.interval) && Holds(d, NameKey, o.name)
    && Holds(d, OrganizerIdKey, o.organizerId) && Holds(d, RecipientIdKey, o.recipientId)
  }

  const StringKeys: set<string> :=
    {DateKey, GroupIdKey, IntervalKey, NameKey, OrganizerIdKey, RecipientIdKey}

  /** The keys of a stored occasion differ in their first letter. */
  lemma DistinctKeys()
    ensures IdKey !in StringKeys && ContributionsKey !in StringKeys && IdKey != ContributionsKey
    ensures DateKey != GroupIdKey && DateKey != IntervalKey && DateKey != NameKey
    ensures DateKey != OrganizerIdKey && DateKey != RecipientIdKey && GroupIdKey != IntervalKey
    ensures GroupIdKey != NameKey && GroupIdKey != OrganizerIdKey && GroupIdKey != RecipientIdKey
    ensures IntervalKey != NameKey && IntervalKey != OrganizerIdKey && IntervalKey != RecipientIdKey
    ensures NameKey != OrganizerIdKey && NameKey != RecipientIdKey && OrganizerIdKey != RecipientIdKey
  {
    assert IdKey[0] == '_' && ContributionsKey[0] == 'c';
    assert DateKey[0] == 'd' && GroupIdKey[0] == 'g' && IntervalKey[0] == 'i';
    assert NameKey[0] == 'n' && OrganizerIdKey[0] == 'o' && RecipientIdKey[0] == 'r';
  }

  /** The string fields, each present only when non-empty. */
  function StringFields(o: Occasion): (r: Object)
    ensures HoldsStrings(r, o)
    ensures r.Keys <= StringKeys
  {
    DistinctKeys();
    var d := PutNonEmpty(map[], DateKey, o.date);
    var d := PutNonEmpty(d, GroupIdKey, o.groupId);
    var d := PutNonEmpty(d, IntervalKey, o.interval);
    var d := PutNonEmpty(d, NameKey, o.name);
    var d := PutNonEmpty(d, OrganizerIdKey, o.organizerId);
    PutNonEmpty(d, RecipientIdKey, o.recipientId)
  }

  /** Adding a key outside the string fields keeps them. */
  lemma KeepsStrings(d: Object, key: string, v: Value, o: Occasion)
    requires HoldsStrings(d, o) && key !in StringKeys
    ensures HoldsStrings(d[key := v], o)
  {
  }

  /** The document Occasion.toDbo builds: a key for every non-empty field,
      _id only when the id is set, no contributions key for an empty list. */
  function Document(o: Occasion): (r: Object)
    ensures HoldsStrings(r, o)
    ensures IdKey in r <==> o.id.Some?
    ensures o.id.Some? ==> r[IdKey] == Oid(o.id.value)
    ensures ContributionsKey in r <==> |o.contributions| > 0
    ensures ContributionsKey in r ==> r[ContributionsKey] == JArr(ContributionsToDbo(o.contributions))
    ensures r.Keys <= StringKeys + {IdKey, ContributionsKey}
  {
    DistinctKeys();
    var strings := StringFields(o);
    KeepsStrings(strings, IdKey, if o.id.Some? then Oid(o.id.value) else JNull, o);
    var withId := if o.id.Some? && IsValidObjectId(o.id.value) then strings[IdKey := Oid(o.id.value)] else strings;
    KeepsStrings(withId, ContributionsKey, JArr(ContributionsToDbo(o.contributions)), o);
    if |o.contributions| > 0 then withId[ContributionsKey := JArr(ContributionsToDbo(o.contributions))]
    else withId
  }

  /** Occasion.toDbo: the fine log line of the contributions comes first, so a
      contribution with a null userId throws before the document is built. */
  function ToDbo(o: Occasion): (r: Result<Object>)
    ensures r.Ok? <==> AllUserIds(o.contributions)
    ensures r.Fail? ==> r.fault == NullPointer
    ensures r.Ok? ==> r.value == Document(o)
  {
    if AllUserIds(o.contributions) then Ok(Document(o)) else Fail(NullPointer)
  }

  /** Occasion.toJson: as toDbo, with the id as its string; a contribution
      with a null userId makes the builder throw. */
  function ToJson(o: Occasion): (r: Result<Object>)
    ensures r.Ok? <==> AllUserIds(o.contributions)
    ensures r.Ok? ==> HoldsStrings(r.value, o)
    ensures r.Ok? ==> (IdKey in r.value <==> o.id.Some?)
    ensures r.Ok? && o.id.Some? ==> r.value[IdKey] == JStr(o.id.value)
    ensures r.Ok? ==> (ContributionsKey in r.value <==> |o.contributions| > 0)
    ensures r.Ok? && ContributionsKey in r.value ==>
      r.value[ContributionsKey] == JArr(ContributionsToJson(o.contributions).value)
    ensures r.Ok? ==> r.value.Keys <= StringKeys + {IdKey, ContributionsKey}
  {
    var contributions :- ContributionsToJson(o.contributions);
    DistinctKeys();
    var strings := StringFields(o);
    KeepsStrings(strings, IdKey, if o.id.Some? then JStr(o.id.value) else JNull, o);
    var withId := if o.id.Some? && IsValidObjectId(o.id.value) then strings[IdKey := JStr(o.id.value)] else strings;
    KeepsStrings(withId, ContributionsKey, JArr(contributions), o);
    Ok(if |contributions| > 0 then withId[ContributionsKey := JArr(contributions)] else withId)
  }

  lemma ReadBackDbo(d: Object, key: string, value: string)
    requires Holds(d, key, value)
    ensures CastString(d, key).Ok? && Normalize(CastString(d, key).value) == value
  {
  }

  lemma ReadBackJson(d: Object, key: string, value: string)
    requires Holds(d, key, value)
    ensures Normalize(GetStringOr(d, key, None)) == value
  {
  }

  /** Reading back a stored document reproduces the occasion when every
      contribution has a userId; otherwise dbListToList throws. */
  lemma DboRoundTrip(o: Occasion)
    ensures FromDbo(Document(o)) == if AllUserIds(o.contributions) then Ok(o) else Fail(NullPointer)
    ensures ToDbo(o).Ok? ==> FromDbo(ToDbo(o).value) == Ok(o)
  {
    var d := Document(o);
    ContributionsDboRoundTrip(o.contributions);
    ReadBackDbo(d, DateKey, o.date);
    ReadBackDbo(d, GroupIdKey, o.groupId);
    ReadBackDbo(d, IntervalKey, o.interval);
    ReadBackDbo(d, NameKey, o.name);
    ReadBackDbo(d, OrganizerIdKey, o.organizerId);
    ReadBackDbo(d, RecipientIdKey, o.recipientId);
    assert CastList(d, ContributionsKey) == Ok(ContributionsToDbo(o.contributions));
    assert SetContributions(Some(o.contributions)) == o.contributions;
  }

  /** Decoding toJson() with the JsonObject constructor reproduces every field,
      provided every contribution has a userId. */
  lemma JsonRoundTrip(o: Occasion)
    requires AllUserIds(o.contributions)
    ensures ToJson(o).Ok?
    ensures FromJson(ToJson(o).value) == Ok(o)
  {
    var j := ToJson(o).value;
    ContributionsJsonRoundTrip(o.contributions);
    if o.id.Some? {
      NewObjectIdOfToString(o.id.value);
    }
    ReadBackJson(j, DateKey, o.date);
    ReadBackJson(j, GroupIdKey, o.groupId);
    ReadBackJson(j, IntervalKey, o.interval);
    ReadBackJson(j, NameKey, o.name);
    ReadBackJson(j, OrganizerIdKey, o.organizerId);
    ReadBackJson(j, RecipientIdKey, o.recipientId);
    assert ContributionsFromJsonValue(Lookup(j, ContributionsKey)) == Ok(o.contributions);
  }

  /** The reply to a successful create, new Occasion(id, null, ...).toString(),
      holds the id and nothing else. */
  lemma IdOnlyJson(id: ObjectId)
    ensures Make(Some(id), None, None, None, None, None, None, None).Ok?
    ensures ToJson(Make(Some(id), None, None, None, None, None, None, None).value)
      == Ok(map[IdKey := JStr(id)])
  {
    var o := Make(Some(id), None, None, None, None, None, None, None).value;
    var j := ToJson(o).value;
    assert j.Keys == {IdKey};
  }

  // ---------------------------------------------------------------------------
  // Occasion equality

  predicate SameFields(a: Occasion, b: Occasion) {
    a.groupId == b.groupId && a.date == b.date && a.interval == b.interval
    && a.name == b.name && a.organizerId == b.organizerId && a.recipientId == b.recipientId
  }

  /** Occasion.equals: by id when both ids are set, otherwise field by field
      with the contributions compared by listsEqual. */
  function Equals(a: Occasion, b: Occasion): (r: Result<bool>)
    ensures a.id.Some? && b.id.Some? ==> r == Ok(a.id == b.id)
    ensures (a.id.None? || b.id.None?) && AllUserIds(a.contributions) && AllUserIds(b.contributions) ==>
      r == Ok(SameFields(a, b)
              && (forall x :: x in a.contributions ==> x in b.contributions)
              && (forall x :: x in b.contributions ==> x in a.contributions))
  {
    if a.id.None? || b.id.None? then
      if SameFields(a, b) then ListsEqual(a.contributions, b.contributions) else Ok(false)
    else Ok(a.id == b.id)
  }

  /** Two occasions without an id that differ only in the order or repetition of
      their contributions are equal. */
  lemma EqualsIgnoresContributionOrder(a: Occasion, b: Occasion)
    requires a.id.None? && AllUserIds(a.contributions) && AllUserIds(b.contributions)
    requires SameFields(a, b)
    requires forall x :: x in a.contributions <==> x in b.contributions
    ensures Equals(a, b) == Ok(true)
  {
  }
}
