/// The group record of the group service (Group.java): built from a database
/// document or from request JSON by copying the members into a fresh array,
/// and encoded back to JSON and to a database document.
module Groups {
  import opened Doc

  const DbIdKey := "_id"
  const IdKey := "id"
  const NameKey := "name"
  const MembersKey := "members"

  /** The contents of a group: id, name and the member ids in order; any of
      them may be null. */
  datatype GroupValue = GroupValue(id: Option<string>, name: Option<string>, members: seq<Option<string>>)

  predicate AllPresent(members: seq<Option<string>>) {
    forall i :: 0 <= i < |members| ==> members[i].Some?
  }

  // ---------------------------------------------------------------------------
  // Decoding, as specification of the two constructors

  /** (String) dbMembers.get(i): a string or null. */
  function MemberFromDbo(v: Value): (r: Result<Option<string>>)
    ensures r.Ok? <==> v.JStr? || v.JNull?
  {
    if v.JStr? then Ok(Some(v.s)) else if v.JNull? then Ok(None) else Fail(ClassCast)
  }

  /** jsonMembers.getString(i): a string, anything else is a cast error. */
  function MemberFromJson(v: Value): (r: Result<Option<string>>)
    ensures r.Ok? <==> v.JStr?
  {
    if v.JStr? then Ok(Some(v.s)) else Fail(ClassCast)
  }

  /** The member array the copying loop produces from the stored list. */
  function MembersFromDbo(items: seq<Value>): (r: Result<seq<Option<string>>>)
    ensures r.Ok? <==> forall i :: 0 <= i < |items| ==> MemberFromDbo(items[i]).Ok?
    ensures r.Ok? ==> |r.value| == |items|
    ensures r.Ok? ==> forall i :: 0 <= i < |items| ==> Ok(r.value[i]) == MemberFromDbo(items[i])
  {
    if forall i :: 0 <= i < |items| ==> MemberFromDbo(items[i]).Ok? then
      Ok(seq(|items|, i requires 0 <= i < |items| && MemberFromDbo(items[i]).Ok? => MemberFromDbo(items[i]).value))
    else Fail(ClassCast)
  }

  function MembersFromJson(items: seq<Value>): (r: Result<seq<Option<string>>>)
    ensures r.Ok? <==> forall i :: 0 <= i < |items| ==> items[i].JStr?
    ensures r.Ok? ==> |r.value| == |items|
    ensures r.Ok? ==> forall i :: 0 <= i < |items| ==> r.value[i] == Some(items[i].s)
  {
    if forall i :: 0 <= i < |items| ==> items[i].JStr? then
      Ok(seq(|items|, i requires 0 <= i < |items| && items[i].JStr? => Some(items[i].s)))
    else Fail(ClassCast)
  }

  /** (BasicDBList) group.get("members"): dereferenced, so it must be there. */
  function DbMembersList(dbo: Object): (r: Result<seq<Value>>)
    ensures r.Ok? <==> MembersKey in dbo && dbo[MembersKey].JArr?
  {
    if MembersKey !in dbo || dbo[MembersKey].JNull? then Fail(NullPointer)
    else if dbo[MembersKey].JArr? then Ok(dbo[MembersKey].items)
    else Fail(ClassCast)
  }

  /** group.getJsonArray("members"): null when absent, which gives no members. */
  function JsonMembersList(json: Object): (r: Result<seq<Value>>)
    ensures MembersKey !in json ==> r == Ok([])
    ensures MembersKey in json ==> (r.Ok? <==> json[MembersKey].JArr?)
  {
    if MembersKey !in json then Ok([])
    else if json[MembersKey].JArr? then Ok(json[MembersKey].items)
    else Fail(ClassCast)
  }

  /** Group(DBObject). */
  function DecodeDbo(dbo: Object): (r: Result<GroupValue>)
    ensures r.Ok? ==> DbIdKey in dbo && dbo[DbIdKey].Oid? && r.value.id == Some(dbo[DbIdKey].id)
    ensures r.Ok? ==> MembersKey in dbo && dbo[MembersKey].JArr? && |r.value.members| == |dbo[MembersKey].items|
  {
    var oid :- CastObjectId(dbo, DbIdKey);
    var id: ObjectId :- if oid.None? then Fail(NullPointer) else Ok(oid.value);
    var name :- CastString(dbo, NameKey);
    var items :- DbMembersList(dbo);
    var members :- MembersFromDbo(items);
    Ok(GroupValue(Some(id), name, members))
  }

  /** Group(JsonObject): the id only when its key is present; the name is
      required. */
  function DecodeJson(json: Object): (r: Result<GroupValue>)
    ensures r.Ok? ==> (r.value.id.Some? <==> IdKey in json)
    ensures r.Ok? ==> r.value.name.Some?
    ensures r.Ok? && MembersKey !in json ==> r.value.members == []
  {
    var id :- if IdKey in json then (match GetString(json, IdKey) case Ok(s) => Ok(Some(s)) case Fail(f) => Fail(f))
              else Ok(None);
    var name :- GetString(json, NameKey);
    var items :- JsonMembersList(json);
    var members :- MembersFromJson(items);
    Ok(GroupValue(id, Some(name), members))
  }

  // ---------------------------------------------------------------------------
  // Encoding, as specification of getJson and getDBObject

  /** getJson: id, name and the members in order; the builder refuses a null
      in any of them. */
  function EncodeJson(g: GroupValue): (r: Result<Object>)
    ensures r.Ok? <==> g.id.Some? && g.name.Some? && AllPresent(g.members)
    ensures r.Ok? ==> r.value.Keys == {IdKey, NameKey, MembersKey}
  {
    if g.id.None? || g.name.None? || !AllPresent(g.members) then Fail(NullPointer)
    else Ok(map[
      IdKey := JStr(g.id.value),
      NameKey := JStr(g.name.value),
      MembersKey := JArr(seq(|g.members|, i requires 0 <= i < |g.members| && AllPresent(g.members) => JStr(g.members[i].value)))])
  }

  function MemberToDbo(m: Option<string>): Value {
    if m.Some? then JStr(m.value) else JNull
  }

  /** getDBObject(includeId): _id only when asked for (new ObjectId(id) refuses
      a null or malformed id), then the name and the members in order. */
  function EncodeDbo(g: GroupValue, includeId: bool): (r: Result<Object>)
    ensures r.Fail? <==> includeId && !(g.id.Some? && IsValidObjectId(g.id.value))
    ensures r.Ok? ==> r.value.Keys == {NameKey, MembersKey} + (if includeId then {DbIdKey} else {})
  {
    var idField: Object :-
      if !includeId then Ok(map[])
      else if g.id.Some? && IsValidObjectId(g.id.value) then Ok(map[DbIdKey := Oid(NewObjectId(g.id.value))])
      else Fail(IllegalArgument);
    Ok(idField
      [NameKey := if g.name.Some? then JStr(g.name.value) else JNull]
      [MembersKey := JArr(seq(|g.members|, i requires 0 <= i < |g.members| => MemberToDbo(g.members[i])))])
  }

  /** Decoding getJson() with the JSON constructor gives the same id, name and
      members, in order. */
  lemma JsonRoundTrip(g: GroupValue)
    requires EncodeJson(g).Ok?
    ensures DecodeJson(EncodeJson(g).value) == Ok(g)
  {
    var members := MembersFromJson(EncodeJson(g).value[MembersKey].items);
    assert members.Ok?;
    assert members.value == g.members;
  }

  /** Reading a stored group back gives the same group, when its id is an
      ObjectId as printed. */
  lemma DboRoundTrip(g: GroupValue)
    requires g.id.Some? && IsValidObjectId(g.id.value) && IsLowerCase(g.id.value)
    ensures EncodeDbo(g, true).Ok?
    ensures DecodeDbo(EncodeDbo(g, true).value) == Ok(g)
  {
    var id: ObjectId := g.id.value;
    NewObjectIdOfToString(id);
    var members := MembersFromDbo(EncodeDbo(g, true).value[MembersKey].items);
    assert members.Ok?;
    assert members.value == g.members;
  }

  // ---------------------------------------------------------------------------
  // The class, with its member array

  class Group {
    var id: Option<string>
    var name: Option<string>
    var members: array<Option<string>>

    /** What the object holds. */
    function Value(): GroupValue
      reads this, members
    {
      GroupValue(id, name, members[..])
    }

    constructor Init(id: Option<string>, name: Option<string>, members: array<Option<string>>)
      ensures this.id == id && this.name == name && this.members == members
    {
      this.id := id;
      this.name := name;
      this.members := members;
    }

    /** Group(DBObject): the members are copied into a fresh array of the same
        length, index by index. */
    static method FromDbo(dbo: Object) returns (r: Result<Group>)
      ensures r.Fail? <==> DecodeDbo(dbo).Fail?
      ensures r.Fail? ==> r.fault == DecodeDbo(dbo).fault
      ensures r.Ok? ==> fresh(r.value) && fresh(r.value.members) && r.value.Value() == DecodeDbo(dbo).value
    {
      var oid :- CastObjectId(dbo, DbIdKey);
      if oid.None? {
        return Fail(NullPointer);
      }
      var name :- CastString(dbo, NameKey);
      var dbMembers :- DbMembersList(dbo);
      var members := new Option<string>[|dbMembers|](_ => None);
      for i := 0 to |dbMembers|
        invariant forall j :: 0 <= j < i ==> MemberFromDbo(dbMembers[j]) == Ok(members[j])
      {
        var member := MemberFromDbo(dbMembers[i]);
        if member.Fail? {
          return Fail(member.fault);
        }
        members[i] := member.value;
      }
      var g := new Group.Init(Some(oid.value), name, members);
      assert g.Value().members == MembersFromDbo(dbMembers).value;
      return Ok(g);
    }

    /** Group(JsonObject): an absent member list gives an empty array,
        otherwise the members are copied in order. */
    static method FromJson(json: Object) returns (r: Result<Group>)
      ensures r.Fail? <==> DecodeJson(json).Fail?
      ensures r.Fail? ==> r.fault == DecodeJson(json).fault
      ensures r.Ok? ==> fresh(r.value) && fresh(r.value.members) && r.value.Value() == DecodeJson(json).value
    {
      var id: Option<string> := None;
      if IdKey in json {
        var s :- GetString(json, IdKey);
        id := Some(s);
      }
      var name :- GetString(json, NameKey);
      var jsonMembers :- JsonMembersList(json);
      var members := new Option<string>[|jsonMembers|](_ => None);
      for i := 0 to |jsonMembers|
        invariant forall j :: 0 <= j < i ==> jsonMembers[j].JStr? && members[j] == Some(jsonMembers[j].s)
      {
        var member := MemberFromJson(jsonMembers[i]);
        if member.Fail? {
          return Fail(member.fault);
        }
        members[i] := member.value;
      }
      var g := new Group.Init(id, Some(name), members);
      assert g.Value().members == MembersFromJson(jsonMembers).value;
      return Ok(g);
    }

    /** getJson: refuses a null id or name, then copies the members into
        the array one by one, refusing a null member. */
    method GetJson() returns (r: Result<Object>)
      ensures r == EncodeJson(Value())
      ensures r.Ok? ==> DecodeJson(r.value) == Ok(Value())
    {
      if id.None? || name.None? {
        return Fail(NullPointer);
      }
      var membersArray: seq<Value> := [];
      for i := 0 to members.Length
        invariant |membersArray| == i
        invariant forall j :: 0 <= j < i ==> members[j].Some? && membersArray[j] == JStr(members[j].value)
      {
        if members[i].None? {
          return Fail(NullPointer);
        }
        membersArray := membersArray + [JStr(members[i].value)];
      }
      r := Ok(map[IdKey := JStr(id.value), NameKey := JStr(name.value), MembersKey := JArr(membersArray)]);
      assert EncodeJson(Value()).Ok?;
      assert EncodeJson(Value()).value[MembersKey].items == membersArray;
      JsonRoundTrip(Value());
    }

    /** getDBObject(includeId): new ObjectId(id) refuses a null or malformed
        id; a null name or member is stored as null. */
    method GetDBObject(includeId: bool) returns (r: Result<Object>)
      ensures r == EncodeDbo(Value(), includeId)
      ensures r.Ok? && includeId && IsLowerCase(id.value) ==> DecodeDbo(r.value) == Ok(Value())
    {
      var group: Object := map[];
      if includeId {
        if id.None? || !IsValidObjectId(id.value) {
          return Fail(IllegalArgument);
        }
        group := group[DbIdKey := Oid(NewObjectId(id.value))];
      }
      group := group[NameKey := if name.Some? then JStr(name.value) else JNull];
      var membersArray: seq<Value> := [];
      for i := 0 to members.Length
        invariant |membersArray| == i
        invariant forall j :: 0 <= j < i ==> membersArray[j] == MemberToDbo(members[j])
      {
        membersArray := membersArray + [MemberToDbo(members[i])];
      }
      r := Ok(group[MembersKey := JArr(membersArray)]);
      assert EncodeDbo(Value(), includeId).value[MembersKey].items == membersArray;
      assert r == EncodeDbo(Value(), includeId);
      if includeId && IsLowerCase(id.value) {
        DboRoundTrip(Value());
      }
    }
  }
}
