/// The user record of the user service (User.java): built from a database
/// document, from request JSON or from a Twitter login, and projected to the
/// public JSON view, the stored document and the update document.
module Users {
  import opened Doc

  const DbIdKey := "_id"
  const IdKey := "id"
  const FirstNameKey := "firstName"
  const LastNameKey := "lastName"
  const UserNameKey := "userName"
  const TwitterHandleKey := "twitterHandle"
  const WishListLinkKey := "wishListLink"
  const TwitterLoginKey := "isTwitterLogin"
  const PasswordHashKey := "password"
  const PasswordSaltKey := "salt"

  /** A user; every string field may be null. */
  datatype User = User(
    id: Option<string>,
    firstName: Option<string>,
    lastName: Option<string>,
    userName: Option<string>,
    twitterHandle: Option<string>,
    wishListLink: Option<string>,
    passwordHash: Option<string>,
    passwordSalt: Option<string>,
    isTwitterLogin: bool)

  // ---------------------------------------------------------------------------
  // String.trim

  function TrimStart(s: string): (r: string)
    ensures |r| <= |s| && r == s[|s| - |r|..]
    ensures |r| > 0 ==> r[0] > ' '
    ensures |r| == 0 ==> forall k :: 0 <= k < |s| ==> s[k] <= ' '
  {
    if |s| > 0 && s[0] <= ' ' then TrimStart(s[1..]) else s
  }

  function TrimEnd(s: string): (r: string)
    ensures |r| <= |s| && r == s[..|r|]
    ensures |r| > 0 ==> r[|r| - 1] > ' '
    ensures |r| == 0 ==> forall k :: 0 <= k < |s| ==> s[k] <= ' '
  {
    if |s| > 0 && s[|s| - 1] <= ' ' then TrimEnd(s[..|s| - 1]) else s
  }

  /** String.trim: leading and trailing characters up to ' ' removed. */
  function Trim(s: string): (r: string)
    ensures |r| > 0 ==> r[0] > ' ' && r[|r| - 1] > ' '
    ensures |r| == 0 <==> forall k :: 0 <= k < |s| ==> s[k] <= ' '
  {
    var start := TrimStart(s);
    var r := TrimEnd(start);
    assert |r| > 0 ==> r[0] == start[0];
    r
  }

  // ---------------------------------------------------------------------------
  // Constructors

  /** The name-parsing part of User(String name, String twitterHandle):
      (firstName, lastName). The name is split at its last space after
      trimming: the last name has no space, the first name is what precedes the
      space; with no space the whole name is the last name, and a null or blank
      name gives "" and "". */
  function SplitName(name: Option<string>): (r: (string, string))
    ensures forall k :: 0 <= k < |r.1| ==> r.1[k] != ' '
    ensures name.None? || Trim(name.value) == "" ==> r.0 == "" && r.1 == ""
    ensures name.Some? && ' ' in Trim(name.value) ==> r.0 != "" && r.0 + " " + r.1 == Trim(name.value)
    ensures name.Some? && ' ' !in Trim(name.value) ==> r.0 == "" && r.1 == Trim(name.value)
  {
    if name.None? then ("", "")
    else
      SplitTrimmedFacts(Trim(name.value));
      SplitTrimmed(Trim(name.value))
  }

  /** A trimmed name cut at its last space. */
  function SplitTrimmed(aName: string): (string, string) {
    if |aName| > 0 then
      var i := LastIndexOf(aName, ' ', |aName| - 1);
      if i != -1 then (aName[..i], aName[i + 1..])
      else ("", aName)
    else ("", "")
  }

  lemma SplitTrimmedFacts(a: string)
    requires |a| > 0 ==> a[0] > ' '
    ensures var (first, last) := SplitTrimmed(a);
      && (forall k :: 0 <= k < |last| ==> last[k] != ' ')
      && (a == "" ==> first == "" && last == "")
      && (' ' in a ==> first != "" && first + " " + last == a)
      && (' ' !in a ==> first == "" && last == a)
  {
    if |a| > 0 {
      var i := LastIndexOf(a, ' ', |a| - 1);
      if i != -1 {
        assert i != 0;
        assert a[..i] + " " + a[i + 1..] == a;
      } else {
        assert ' ' !in a;
      }
    }
  }

  /** User(String name, String twitterHandle). */
  function FromTwitter(name: Option<string>, handle: Option<string>): (u: User)
    ensures u.userName == handle && u.twitterHandle == handle
    ensures u.passwordHash == Some("") && u.passwordSalt == Some("") && u.wishListLink == Some("")
    ensures u.isTwitterLogin && u.id.None?
    ensures u.firstName == Some(SplitName(name).0) && u.lastName == Some(SplitName(name).1)
  {
    var (first, last) := SplitName(name);
    User(None, Some(first), Some(last), handle, handle, Some(""), Some(""), Some(""), true)
  }

  function NullableString(o: Object, key: string): (r: Result<Option<string>>)
    ensures key !in o ==> r == Ok(None)
    ensures key in o ==> (r.Ok? <==> o[key].JStr?)
    ensures key in o && r.Ok? ==> r.value == Some(o[key].s)
  {
    if key !in o then Ok(None)
    else match GetString(o, key)
      case Ok(s) => Ok(Some(s))
      case Fail(f) => Fail(f)
  }

  /** JsonObject.getBoolean(key, default). */
  function GetBooleanOr(o: Object, key: string, default: bool): bool {
    if key in o && o[key].JBool? then o[key].b else default
  }

  /** User(JsonObject): id, userName, hash and salt only when their keys are
      present (getString then throws on a non-string); the other strings
      default to "" and isTwitterLogin to false. */
  function FromJson(json: Object): (r: Result<User>)
    ensures r.Ok? <==> forall k :: k in {IdKey, UserNameKey, PasswordHashKey, PasswordSaltKey} && k in json ==> json[k].JStr?
    ensures r.Ok? ==> (r.value.id.Some? <==> IdKey in json)
    ensures r.Ok? ==> (r.value.userName.Some? <==> UserNameKey in json)
    ensures r.Ok? ==> (r.value.passwordHash.Some? <==> PasswordHashKey in json)
    ensures r.Ok? ==> (r.value.passwordSalt.Some? <==> PasswordSaltKey in json)
    ensures r.Ok? && IdKey in json ==> r.value.id == Some(json[IdKey].s)
    ensures r.Ok? && UserNameKey in json ==> r.value.userName == Some(json[UserNameKey].s)
    ensures r.Ok? && PasswordHashKey in json ==> r.value.passwordHash == Some(json[PasswordHashKey].s)
    ensures r.Ok? && PasswordSaltKey in json ==> r.value.passwordSalt == Some(json[PasswordSaltKey].s)
    ensures r.Ok? ==> r.value.firstName == GetStringOr(json, FirstNameKey, Some(""))
    ensures r.Ok? ==> r.value.lastName == GetStringOr(json, LastNameKey, Some(""))
    ensures r.Ok? ==> r.value.twitterHandle == GetStringOr(json, TwitterHandleKey, Some(""))
    ensures r.Ok? ==> r.value.wishListLink == GetStringOr(json, WishListLinkKey, Some(""))
    ensures r.Ok? && FirstNameKey !in json ==> r.value.firstName == Some("")
    ensures r.Ok? && LastNameKey !in json ==> r.value.lastName == Some("")
    ensures r.Ok? && TwitterHandleKey !in json ==> r.value.twitterHandle == Some("")
    ensures r.Ok? && WishListLinkKey !in json ==> r.value.wishListLink == Some("")
    ensures r.Ok? && TwitterLoginKey !in json ==> !r.value.isTwitterLogin
  {
    var id :- NullableString(json, IdKey);
    var firstName := GetStringOr(json, FirstNameKey, Some(""));
    var lastName := GetStringOr(json, LastNameKey, Some(""));
    var twitterHandle := GetStringOr(json, TwitterHandleKey, Some(""));
    var wishListLink := GetStringOr(json, WishListLinkKey, Some(""));
    var isTwitterLogin := GetBooleanOr(json, TwitterLoginKey, false);
    var userName :- NullableString(json, UserNameKey);
    var passwordHash :- NullableString(json, PasswordHashKey);
    var passwordSalt :- NullableString(json, PasswordSaltKey);
    Ok(User(id, firstName, lastName, userName, twitterHandle, wishListLink,
            passwordHash, passwordSalt, isTwitterLogin))
  }

  /** User(DBObject): the _id must be an ObjectId and isTwitterLogin a
      Boolean, both non-null (they are dereferenced or unboxed). */
  function FromDbo(dbo: Object): (r: Result<User>)
    ensures r.Ok? ==> DbIdKey in dbo && dbo[DbIdKey].Oid? && r.value.id == Some(dbo[DbIdKey].id)
    ensures r.Ok? ==> TwitterLoginKey in dbo && dbo[TwitterLoginKey] == JBool(r.value.isTwitterLogin)
  {
    var oid :- CastObjectId(dbo, DbIdKey);
    var id: ObjectId :- if oid.None? then Fail(NullPointer) else Ok(oid.value);
    var firstName :- CastString(dbo, FirstNameKey);
    var lastName :- CastString(dbo, LastNameKey);
    var userName :- CastString(dbo, UserNameKey);
    var twitterHandle :- CastString(dbo, TwitterHandleKey);
    var wishListLink :- CastString(dbo, WishListLinkKey);
    var passwordHash :- CastString(dbo, PasswordHashKey);
    var passwordSalt :- CastString(dbo, PasswordSaltKey);
    var isTwitterLogin :-
      if TwitterLoginKey !in dbo || dbo[TwitterLoginKey].JNull? then Fail(NullPointer)
      else if dbo[TwitterLoginKey].JBool? then Ok(dbo[TwitterLoginKey].b)
      else Fail(ClassCast);
    Ok(User(Some(id), firstName, lastName, userName, twitterHandle, wishListLink,
            passwordHash, passwordSalt, isTwitterLogin))
  }

  // ---------------------------------------------------------------------------
  // Projections

  function Nullable(s: Option<string>): Value {
    if s.Some? then JStr(s.value) else JNull
  }

  const PublicKeys: set<string> :=
    {IdKey, FirstNameKey, LastNameKey, UserNameKey, TwitterHandleKey, WishListLinkKey, TwitterLoginKey}

  /** getPublicJsonObject: everything but the password hash and salt; a null
      field makes the builder throw. */
  function PublicJson(u: User): (r: Result<Object>)
    ensures r.Ok? <==> u.id.Some? && u.firstName.Some? && u.lastName.Some? && u.userName.Some?
                       && u.twitterHandle.Some? && u.wishListLink.Some?
    ensures r.Ok? ==> r.value.Keys == PublicKeys
    ensures r.Ok? ==> PasswordHashKey !in r.value && PasswordSaltKey !in r.value
  {
    if u.id.None? || u.firstName.None? || u.lastName.None? || u.userName.None?
       || u.twitterHandle.None? || u.wishListLink.None?
    then Fail(NullPointer)
    else Ok(map[
      IdKey := JStr(u.id.value),
      FirstNameKey := JStr(u.firstName.value),
      LastNameKey := JStr(u.lastName.value),
      UserNameKey := JStr(u.userName.value),
      TwitterHandleKey := JStr(u.twitterHandle.value),
      WishListLinkKey := JStr(u.wishListLink.value),
      TwitterLoginKey := JBool(u.isTwitterLogin)])
  }

  const StoredKeys: set<string> :=
    {FirstNameKey, LastNameKey, UserNameKey, TwitterHandleKey, WishListLinkKey,
     PasswordHashKey, PasswordSaltKey, TwitterLoginKey}

  /** getDBObject(includeId): every field, null ones as null, and _id only when
      asked for; new ObjectId(id) refuses a null or malformed id. */
  function DBObject(u: User, includeId: bool): (r: Result<Object>)
    ensures r.Fail? <==> includeId && !(u.id.Some? && IsValidObjectId(u.id.value))
    ensures r.Ok? ==> r.value.Keys == StoredKeys + (if includeId then {DbIdKey} else {})
  {
    var idField: Object :-
      if !includeId then Ok(map[])
      else if u.id.Some? && IsValidObjectId(u.id.value) then Ok(map[DbIdKey := Oid(NewObjectId(u.id.value))])
      else Fail(IllegalArgument);
    Ok(idField + map[
      FirstNameKey := Nullable(u.firstName),
      LastNameKey := Nullable(u.lastName),
      UserNameKey := Nullable(u.userName),
      TwitterHandleKey := Nullable(u.twitterHandle),
      WishListLinkKey := Nullable(u.wishListLink),
      PasswordHashKey := Nullable(u.passwordHash),
      PasswordSaltKey := Nullable(u.passwordSalt),
      TwitterLoginKey := JBool(u.isTwitterLogin)])
  }

  /** getDBObjectForModify: a Twitter user may change only the names and the
      wish list; any other user also the handle, and userName, hash and salt
      when they are not null. */
  function DBObjectForModify(u: User): (r: Object)
    ensures FirstNameKey in r && LastNameKey in r && WishListLinkKey in r
    ensures TwitterHandleKey in r <==> !u.isTwitterLogin
    ensures UserNameKey in r <==> !u.isTwitterLogin && u.userName.Some?
    ensures PasswordHashKey in r <==> !u.isTwitterLogin && u.passwordHash.Some?
    ensures PasswordSaltKey in r <==> !u.isTwitterLogin && u.passwordSalt.Some?
    ensures r.Keys <= {FirstNameKey, LastNameKey, WishListLinkKey, TwitterHandleKey, UserNameKey, PasswordHashKey, PasswordSaltKey}
    ensures forall k :: k in r ==> r[k] == Nullable(FieldOf(u, k))
  {
    DistinctKeys();
    var base := map[
      FirstNameKey := Nullable(u.firstName),
      LastNameKey := Nullable(u.lastName),
      WishListLinkKey := Nullable(u.wishListLink)];
    if u.isTwitterLogin then base
    else
      var withHandle := base[TwitterHandleKey := Nullable(u.twitterHandle)];
      var withName := if u.userName.Some? then withHandle[UserNameKey := Nullable(u.userName)] else withHandle;
      var withHash := if u.passwordHash.Some? then withName[PasswordHashKey := Nullable(u.passwordHash)] else withName;
      if u.passwordSalt.Some? then withHash[PasswordSaltKey := Nullable(u.passwordSalt)] else withHash
  }

  /** The keys of the update document differ in their first letter. */
  lemma DistinctKeys()
    ensures FirstNameKey != LastNameKey && FirstNameKey != UserNameKey && FirstNameKey != TwitterHandleKey
    ensures FirstNameKey != WishListLinkKey && FirstNameKey != PasswordHashKey && FirstNameKey != PasswordSaltKey
    ensures LastNameKey != UserNameKey && LastNameKey != TwitterHandleKey && LastNameKey != WishListLinkKey
    ensures LastNameKey != PasswordHashKey && LastNameKey != PasswordSaltKey && UserNameKey != TwitterHandleKey
    ensures UserNameKey != WishListLinkKey && UserNameKey != PasswordHashKey && UserNameKey != PasswordSaltKey
    ensures TwitterHandleKey != WishListLinkKey && TwitterHandleKey != PasswordHashKey && TwitterHandleKey != PasswordSaltKey
    ensures WishListLinkKey != PasswordHashKey && WishListLinkKey != PasswordSaltKey && PasswordHashKey != PasswordSaltKey
  {
    assert FirstNameKey[0] == 'f' && LastNameKey[0] == 'l' && UserNameKey[0] == 'u';
    assert TwitterHandleKey[0] == 't' && WishListLinkKey[0] == 'w';
    assert PasswordHashKey[0] == 'p' && PasswordSaltKey[0] == 's';
  }

  /** The user field stored under a document key. */
  function FieldOf(u: User, key: string): Option<string> {
    if key == FirstNameKey then u.firstName
    else if key == LastNameKey then u.lastName
    else if key == UserNameKey then u.userName
    else if key == TwitterHandleKey then u.twitterHandle
    else if key == WishListLinkKey then u.wishListLink
    else if key == PasswordHashKey then u.passwordHash
    else if key == PasswordSaltKey then u.passwordSalt
    else u.id
  }

  /** A user created from a Twitter login (FromTwitter sets the flag) can
      never change its handle, user name or password through an update. */
  lemma TwitterUserKeepsCredentials(u: User)
    requires u.isTwitterLogin
    ensures var m := DBObjectForModify(u);
      TwitterHandleKey !in m && UserNameKey !in m && PasswordHashKey !in m && PasswordSaltKey !in m
  {
  }

  // ---------------------------------------------------------------------------
  // Round trips

  /** Storing a user with its id and reading the document back gives the user. */
  lemma DboRoundTrip(u: User)
    requires u.id.Some? && IsValidObjectId(u.id.value) && IsLowerCase(u.id.value)
    ensures DBObject(u, true).Ok?
    ensures FromDbo(DBObject(u, true).value) == Ok(u)
  {
    var id: ObjectId := u.id.value;
    NewObjectIdOfToString(id);
    var d := DBObject(u, true).value;
    assert d[DbIdKey] == Oid(id);
    assert CastObjectId(d, DbIdKey) == Ok(Some(id));
    assert CastString(d, FirstNameKey) == Ok(u.firstName);
    assert CastString(d, LastNameKey) == Ok(u.lastName);
    assert CastString(d, UserNameKey) == Ok(u.userName);
    assert CastString(d, TwitterHandleKey) == Ok(u.twitterHandle);
    assert CastString(d, WishListLinkKey) == Ok(u.wishListLink);
    assert CastString(d, PasswordHashKey) == Ok(u.passwordHash);
    assert CastString(d, PasswordSaltKey) == Ok(u.passwordSalt);
    assert d[TwitterLoginKey] == JBool(u.isTwitterLogin);
  }

  /** Reading the public view back with the JSON constructor gives the user
      without its password hash and salt. */
  lemma PublicJsonRoundTrip(u: User)
    requires PublicJson(u).Ok?
    ensures FromJson(PublicJson(u).value) == Ok(u.(passwordHash := None, passwordSalt := None))
  {
  }
}
