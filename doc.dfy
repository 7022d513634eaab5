/// Documents as the services exchange them: JSON objects (javax.json) and
/// MongoDB documents (BSON DBObjects), both as maps from key to value, and the
/// Java exceptions that the modelled code lets escape, as values.
module Doc {

  datatype Option<+T> = None | Some(value: T) {
    function GetOr(default: T): T {
      if Some? then value else default
    }
  }

  /** The Java exceptions that can escape the modelled code. */
  datatype Fault =
    | NullPointer       // NullPointerException: a null reference was dereferenced
    | ClassCast         // ClassCastException: a JSON/BSON value of the wrong type
    | IndexOutOfBounds  // StringIndexOutOfBoundsException from String.substring
    | Parse             // java.text.ParseException from SimpleDateFormat.parse
    | Io                // java.io.IOException from an HTTP call
    | Processing        // a runtime exception of the HTTP client (not an IOException)
    | MongoWrite        // a write the database refuses
    | Remote            // TwitterException: the Twitter client reported a failure
    | IllegalArgument   // new ObjectId(s) with s null or not a valid ObjectId

  datatype Result<+T> = Ok(value: T) | Fail(fault: Fault) {
    predicate IsFailure() {
      Fail?
    }

    function PropagateFailure<U>(): Result<U>
      requires Fail?
    {
      Fail(fault)
    }

    function Extract(): T
      requires Ok?
    {
      value
    }
  }

  /** ObjectId.isValid: exactly 24 hexadecimal digits, in either case. */
  predicate IsHexDigit(c: char) {
    '0' <= c <= '9' || 'a' <= c <= 'f' || 'A' <= c <= 'F'
  }

  predicate IsValidObjectId(s: string) {
    |s| == 24 && forall i :: 0 <= i < |s| ==> IsHexDigit(s[i])
  }

  predicate IsLowerCase(s: string) {
    forall i :: 0 <= i < |s| ==> !('A' <= s[i] <= 'F')
  }

  /** An ObjectId, identified with its toString(): 24 lower-case hex digits. */
  type ObjectId = s: string | IsValidObjectId(s) && IsLowerCase(s)
    witness "000000000000000000000000"

  function LowerHexDigit(c: char): (d: char)
    ensures !('A' <= d <= 'F')
    ensures IsHexDigit(c) ==> IsHexDigit(d)
    ensures !('A' <= c <= 'F') ==> d == c
  {
    if 'A' <= c <= 'F' then (c as int + 32) as char else c
  }

  /** new ObjectId(s): the id whose toString() is s in lower case. */
  function NewObjectId(s: string): (id: ObjectId)
    requires IsValidObjectId(s)
    ensures |id| == |s|
    ensures forall i :: 0 <= i < |s| ==> id[i] == LowerHexDigit(s[i])
  {
    seq(|s|, i requires 0 <= i < |s| => LowerHexDigit(s[i]))
  }

  /** Printing an ObjectId and parsing the text back gives the same id. */
  lemma NewObjectIdOfToString(id: ObjectId)
    ensures NewObjectId(id) == id
  {
    var r := NewObjectId(id);
    assert |r| == |id|;
    forall i | 0 <= i < |id|
      ensures r[i] == id[i]
    {
      assert !('A' <= id[i] <= 'F');
    }
  }

  /** String.lastIndexOf(c, from): the largest index at most `from` that holds
      c, or -1 when there is none (also for a negative `from`). */
  function LastIndexOf(s: string, c: char, from: int): (r: int)
    ensures -1 <= r < |s|
    ensures r >= 0 ==> r <= from
    ensures r >= 0 ==> s[r] == c
    ensures forall j :: r < j <= from && 0 <= j < |s| ==> s[j] != c
    decreases if from < 0 then 0 else from + 1
  {
    if from < 0 then -1
    else if from >= |s| then LastIndexOf(s, c, |s| - 1)
    else if s[from] == c then from
    else LastIndexOf(s, c, from - 1)
  }

  /** A JSON or BSON value; Oid occurs only in database documents. */
  datatype Value =
    | JNull
    | JBool(b: bool)
    | JNum(n: real)
    | JStr(s: string)
    | JArr(items: seq<Value>)
    | JObj(fields: map<string, Value>)
    | Oid(id: ObjectId)

  type Object = map<string, Value>

  /** JsonObject.getString(key, default): the string, or the default when the
      key is absent or its value is not a string. */
  function GetStringOr(o: Object, key: string, default: Option<string>): (r: Option<string>)
    ensures key in o && o[key].JStr? ==> r == Some(o[key].s)
    ensures !(key in o && o[key].JStr?) ==> r == default
  {
    if key in o && o[key].JStr? then Some(o[key].s) else default
  }

  /** JsonObject.getString(key): throws when the key is absent or not a string. */
  function GetString(o: Object, key: string): (r: Result<string>)
    ensures r.Ok? <==> key in o && o[key].JStr?
    ensures r.Ok? ==> r.value == o[key].s
  {
    if key !in o then Fail(NullPointer)
    else if o[key].JStr? then Ok(o[key].s)
    else Fail(ClassCast)
  }

  /** (String) dbo.get(key): null when absent or null, else a cast. */
  function CastString(o: Object, key: string): (r: Result<Option<string>>)
    ensures r.Ok? <==> key !in o || o[key].JNull? || o[key].JStr?
    ensures r.Ok? && r.value.Some? ==> key in o && o[key] == JStr(r.value.value)
    ensures r.Ok? && r.value.None? ==> key !in o || o[key].JNull?
  {
    if key !in o || o[key].JNull? then Ok(None)
    else if o[key].JStr? then Ok(Some(o[key].s))
    else Fail(ClassCast)
  }

  /** (ObjectId) dbo.get(key). */
  function CastObjectId(o: Object, key: string): (r: Result<Option<ObjectId>>)
    ensures r.Ok? <==> key !in o || o[key].JNull? || o[key].Oid?
    ensures r.Ok? && r.value.Some? ==> key in o && o[key] == Oid(r.value.value)
  {
    if key !in o || o[key].JNull? then Ok(None)
    else if o[key].Oid? then Ok(Some(o[key].id))
    else Fail(ClassCast)
  }

  /** The object with {key: value} added when the string is non-empty, as
      the builder's append of a field whose value is not empty. */
  function PutNonEmpty(o: Object, key: string, value: string): (r: Object)
    ensures key in r <==> key in o || value != ""
    ensures value != "" ==> r[key] == JStr(value)
    ensures value == "" ==> r == o
    ensures forall k :: k != key ==> (k in r <==> k in o)
    ensures forall k :: k != key && k in o ==> r[k] == o[k]
  {
    if value != "" then o[key := JStr(value)] else o
  }
}
