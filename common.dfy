/** Values shared by every layer: optional values, JSON documents, the outcome
    of an upstream call, and the few string operations the layers rely on. */
module Common {

  datatype Option<+T> = None | Some(value: T)


  /** A parsed JSON document. Integers and floats are kept apart, as Python's
      `json` module keeps them apart. */
  datatype Json =
    | JNull
    | JBool(b: bool)
    | JInt(i: int)
    | JReal(r: real)
    | JStr(s: string)
    | JArr(items: seq<Json>)
    | JObj(fields: map<string, Json>)

  /** What a raised exception carries in this model: the status of an
      `httpx.HTTPStatusError`, or any other exception (the source raises plain
      `Exception`s), named by its cause. */
  datatype Failure = HttpStatus(code: int) | Raised(cause: string)

  /** A value, or the exception raised instead of it. */
  datatype Result<+T> = Ok(value: T) | Err(failure: Failure)

  /** The outcome of one upstream call: a parsed body, or an exception. */
  type Reply = Result<Json>

  /** `d.get(key, default)` on a JSON object. */
  function GetOr(fields: map<string, Json>, key: string, default: Json): Json
  {
    if key in fields then fields[key] else default
  }

  /** Python truthiness of an optional string (`if note:`): present and non-empty. */
  predicate Truthy(s: Option<string>)
  {
    s.Some? && s.value != ""
  }

  /** `pat` occurs in `s` starting at index `i`. */
  predicate OccursAt(s: string, i: nat, pat: string)
  {
    i + |pat| <= |s| && s[i..i + |pat|] == pat
  }

  /** Python's `pat in s` for strings. */
  predicate Contains(s: string, pat: string)
  {
    exists i: nat | i <= |s| :: OccursAt(s, i, pat)
  }

  /** ASCII lower-casing of one character. */
  function LowerChar(c: char): (r: char)
    ensures 'A' <= c <= 'Z' ==> 'a' <= r <= 'z'
    ensures !('A' <= c <= 'Z') ==> r == c
  {
    if 'A' <= c <= 'Z' then (c as int - 'A' as int + 'a' as int) as char else c
  }

  /** `str.lower()` over ASCII letters. */
  function Lower(s: string): (r: string)
    ensures |r| == |s|
    ensures forall i :: 0 <= i < |s| ==> r[i] == LowerChar(s[i])
  {
    seq(|s|, i requires 0 <= i < |s| => LowerChar(s[i]))
  }

  /** Decimal text of an integer, as an f-string renders it. */
  function IntToString(n: int): string
    decreases if n < 0 then 1 - n else n
  {
    if n < 0 then "-" + IntToString(-n)
    else if n < 10 then [DigitChar(n)]
    else IntToString(n / 10) + [DigitChar(n % 10)]
  }

  function DigitChar(d: int): char
    requires 0 <= d < 10
  {
    ['0', '1', '2', '3', '4', '5', '6', '7', '8', '9'][d]
  }
}
