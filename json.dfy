/**
 * Decoded JSON values as the bot sees them after `response.json()`, plus the
 * two wrappers the rest of the model uses: Option for `dict.get` without a
 * default and Outcome for code paths on which Python raises.
 */
module Json {

  datatype Option<+T> = None | Some(value: T)

  /** The exception classes the modelled code can raise. */
  datatype PyError = TypeError | AttributeError

  /** The value of a Python expression: a result, or the exception it raised. */
  datatype Outcome<+T> = Ok(value: T) | Raised(error: PyError) {
    predicate IsFailure() { Raised? }

    function PropagateFailure<U>(): Outcome<U>
      requires Raised?
    {
      Raised(error)
    }

    function Extract(): T
      requires Ok?
    {
      value
    }
  }

  /**
   * A JSON value. Objects keep their members as an ordered association list so
   * that the insertion order of a Python dict (what `dict.items()` walks) is
   * observable. Numbers are integers only. A decoded object has distinct
   * keys (`DistinctKeys`); the lemmas do not need that, except `GetDistinct`.
   */
  datatype Json =
    | JNull
    | JBool(b: bool)
    | JNum(n: int)
    | JStr(s: string)
    | JArr(items: seq<Json>)
    | JObj(fields: seq<(string, Json)>)

  /** The keys of an object, in order. */
  function Keys(fields: seq<(string, Json)>): seq<string>
  {
    seq(|fields|, i requires 0 <= i < |fields| => fields[i].0)
  }

  /** `d.get(key)`: the value stored under the first occurrence of `key`. */
  function Get(fields: seq<(string, Json)>, key: string): Option<Json> {
    if |fields| == 0 then None
    else if fields[0].0 == key then Some(fields[0].1)
    else Get(fields[1..], key)
  }

  /** A lookup succeeds exactly for the keys present, and returns a value stored under that key. */
  lemma {:induction false} GetSpec(fields: seq<(string, Json)>, key: string)
    ensures Get(fields, key).Some? <==> key in Keys(fields)
    ensures Get(fields, key).Some? ==>
              exists i :: 0 <= i < |fields| && fields[i] == (key, Get(fields, key).value)
  {
    if |fields| > 0 {
      GetSpec(fields[1..], key);
      assert Keys(fields) == [fields[0].0] + Keys(fields[1..]);
      if fields[0].0 != key && Get(fields, key).Some? {
        var i :| 0 <= i < |fields| - 1 && fields[1..][i] == (key, Get(fields, key).value);
        assert fields[i + 1] == (key, Get(fields, key).value);
      }
    }
  }

  /** The keys of an object are pairwise distinct, as in every dict `json.loads` builds. */
  predicate DistinctKeys(fields: seq<(string, Json)>) {
    forall i, j :: 0 <= i < j < |fields| ==> fields[i].0 != fields[j].0
  }

  /** With distinct keys the first entry under a key is the only one, so `Get` agrees with a dict that keeps the last. */
  lemma {:induction false} GetDistinct(fields: seq<(string, Json)>, i: nat)
    requires DistinctKeys(fields) && i < |fields|
    ensures Get(fields, fields[i].0) == Some(fields[i].1)
  {
    if i > 0 {
      assert fields[0].0 != fields[i].0;
      assert fields[1..][i - 1] == fields[i];
      GetDistinct(fields[1..], i - 1);
    }
  }

  /** `d.get(key, default)`. */
  function GetOr(fields: seq<(string, Json)>, key: string, default: Json): Json {
    match Get(fields, key)
    case Some(v) => v
    case None => default
  }

  /** Python truthiness of a decoded JSON value (`if value:`). */
  predicate Truthy(v: Json) {
    match v
    case JNull => false
    case JBool(b) => b
    case JNum(n) => n != 0
    case JStr(s) => |s| > 0
    case JArr(items) => |items| > 0
    case JObj(fields) => |fields| > 0
  }

  /** `value and isinstance(value, dict)`: a non-empty object. */
  predicate NonEmptyObject(v: Json) {
    v.JObj? && |v.fields| > 0
  }
}
