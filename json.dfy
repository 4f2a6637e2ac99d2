// Abstract JSON values, as the native side (nlohmann::ordered_json) and the
// browser side (the result of JSON.parse) hold them. The text form of JSON is
// not modelled: a parse is a function from text to `Option<Json>`, and a
// payload that is dumped and re-parsed is passed on as the value itself.

module Json {

  datatype Option<T> = None | Some(value: T)

  datatype Json =
    | JNull
    | JBool(b: bool)
    | JNum(n: real)
    | JStr(s: string)
    | JArr(elems: seq<Json>)
    | JObj(members: seq<(string, Json)>)

  /** The value stored under `key` in an object's member list: the first
      member with that key, as a lookup in an insertion-ordered map finds it. */
  function Find(members: seq<(string, Json)>, key: string): (r: Option<Json>)
    ensures r.None? <==> forall i :: 0 <= i < |members| ==> members[i].0 != key
    ensures r.Some? ==> exists i :: 0 <= i < |members| && members[i] == (key, r.value)
  {
    if members == [] then None
    else if members[0].0 == key then Some(members[0].1)
    else
      var r := Find(members[1..], key);
      assert r.Some? ==> exists i :: 1 <= i < |members| && members[i] == (key, r.value) by {
        if r.Some? {
          var k :| 0 <= k < |members[1..]| && members[1..][k] == (key, r.value);
          assert members[k + 1] == (key, r.value);
        }
      }
      r
  }

  /** The first member with the key is the one found. */
  lemma {:induction false} FindFirst(members: seq<(string, Json)>, k: nat, key: string)
    requires k < |members| && members[k].0 == key
    requires forall i :: 0 <= i < k ==> members[i].0 != key
    ensures Find(members, key) == Some(members[k].1)
  {
    if k > 0 {
      FindFirst(members[1..], k - 1, key);
    }
  }

  /** `j.at(key)` of nlohmann::json: an object's member, or an exception
      (None) when `j` is not an object or has no such key. */
  function At(j: Json, key: string): (r: Option<Json>)
    ensures r.Some? ==> j.JObj?
  {
    if j.JObj? then Find(j.members, key) else None
  }

  /** Truncation toward zero, as C++'s conversion of a double to an integer. */
  function TruncToInt(x: real): (i: int)
    ensures x >= 0.0 ==> i as real <= x < i as real + 1.0
    ensures x < 0.0 ==> i as real - 1.0 < x <= i as real
  {
    if x >= 0.0 then x.Floor else -((-x).Floor)
  }

  /** 2^64, the number of values of a 64-bit size_t. */
  const SizeModulus: int := 0x1_0000_0000_0000_0000

  /** `get<double>()`: numbers only; anything else throws a type error. */
  function GetDouble(j: Json): Option<real>
  {
    if j.JNum? then Some(j.n) else None
  }

  /** `get<int>()`: a number is truncated toward zero, a boolean gives 0 or 1;
      anything else throws a type error. */
  function GetInt(j: Json): Option<int>
  {
    match j
    case JNum(x) => Some(TruncToInt(x))
    case JBool(b) => Some(if b then 1 else 0)
    case _ => None
  }

  /** `get<size_t>()`: a number truncated toward zero and taken modulo 2^64;
      anything else (booleans included) throws a type error. */
  function GetSize(j: Json): Option<nat>
  {
    if j.JNum? then Some(TruncToInt(j.n) % SizeModulus) else None
  }

  /** `get<std::string>()`: strings only. */
  function GetString(j: Json): Option<string>
  {
    if j.JStr? then Some(j.s) else None
  }

  /** `j.at(key).get<T>()` for the conversions above, None on any exception. */
  function DoubleAt(j: Json, key: string): Option<real>
  {
    var v := At(j, key);
    if v.Some? then GetDouble(v.value) else None
  }

  function IntAt(j: Json, key: string): Option<int>
  {
    var v := At(j, key);
    if v.Some? then GetInt(v.value) else None
  }

  function SizeAt(j: Json, key: string): Option<nat>
  {
    var v := At(j, key);
    if v.Some? then GetSize(v.value) else None
  }

  function StringAt(j: Json, key: string): Option<string>
  {
    var v := At(j, key);
    if v.Some? then GetString(v.value) else None
  }

  /** A whole number survives the round trip through a JSON number and `get<int>()`. */
  lemma IntThroughNumber(i: int)
    ensures GetInt(JNum(i as real)) == Some(i)
  {
    if i < 0 {
      assert -(i as real) == (-i) as real;
    }
  }
}
