/** Shared vocabulary of the front end: optional values, JavaScript truthiness
    of text, plain records, string upper-casing and the settled outcome of one
    awaited HTTP call. */
module Js {

  datatype Option<+T> = None | Some(value: T)

  /** A plain JavaScript object whose fields hold text (a JSON record). */
  type Record = map<string, string>

  /** `obj[key]`: `undefined` (None) when the key is absent. */
  function Field(r: Record, key: string): Option<string>
  {
    if key in r then Some(r[key]) else None
  }

  /** JavaScript truthiness of a possibly undefined string: "" and undefined are falsy. */
  predicate Truthy(s: Option<string>)
  {
    s.Some? && s.value != ""
  }

  /** `a || fallback` for a possibly undefined string. */
  function OrElse(a: Option<string>, fallback: string): string
  {
    if Truthy(a) then a.value else fallback
  }

  /** `String(a)`: JavaScript turns `undefined` into the text "undefined". */
  function ToText(a: Option<string>): string
  {
    if a.Some? then a.value else "undefined"
  }

  /** Upper-casing of one character (ASCII letters only). */
  function UpperChar(c: char): char
  {
    if 'a' <= c <= 'z' then (c as int - 32) as char else c
  }

  /** `s.toUpperCase()`, restricted to ASCII letters. */
  function ToUpper(s: string): (r: string)
    ensures |r| == |s|
    ensures forall i :: 0 <= i < |s| ==> r[i] == UpperChar(s[i])
  {
    if s == [] then [] else [UpperChar(s[0])] + ToUpper(s[1..])
  }

  /** Upper-casing twice is upper-casing once. */
  lemma ToUpperIdempotent(s: string)
    ensures ToUpper(ToUpper(s)) == ToUpper(s)
  {
    var u := ToUpper(s);
    assert forall i :: 0 <= i < |u| ==> UpperChar(u[i]) == u[i];
  }

  /** Lower-casing of one character (ASCII letters only). */
  function LowerChar(c: char): char
  {
    if 'A' <= c <= 'Z' then (c as int + 32) as char else c
  }

  /** `s.toLowerCase()`, restricted to ASCII letters. */
  function ToLower(s: string): (r: string)
    ensures |r| == |s|
    ensures forall i :: 0 <= i < |s| ==> r[i] == LowerChar(s[i])
  {
    seq(|s|, i requires 0 <= i < |s| => LowerChar(s[i]))
  }

  /** Lower-casing distributes over concatenation. */
  lemma ToLowerAppend(a: string, b: string)
    ensures ToLower(a + b) == ToLower(a) + ToLower(b)
  {
    assert forall i :: 0 <= i < |a + b| ==> ToLower(a + b)[i] == (ToLower(a) + ToLower(b))[i];
  }

  /** Lower-casing twice is lower-casing once. */
  lemma ToLowerIdempotent(s: string)
    ensures ToLower(ToLower(s)) == ToLower(s)
  {
    var l := ToLower(s);
    assert forall i :: 0 <= i < |l| ==> LowerChar(l[i]) == l[i];
  }

  /** Text without upper-case ASCII letters is its own lower-casing. */
  lemma ToLowerKeepsLower(s: string)
    requires forall i :: 0 <= i < |s| ==> !('A' <= s[i] <= 'Z')
    ensures ToLower(s) == s
  {
    assert forall i :: 0 <= i < |s| ==> ToLower(s)[i] == s[i];
  }

  /** Text without lower-case ASCII letters is its own upper-casing. */
  lemma ToUpperKeepsUpper(s: string)
    requires forall i :: 0 <= i < |s| ==> !('a' <= s[i] <= 'z')
    ensures ToUpper(s) == s
  {
    assert forall i :: 0 <= i < |s| ==> ToUpper(s)[i] == s[i];
  }

  /** The body of an HTTP error response: `data.message` and `data.errors[*].msg`. */
  datatype ErrorBody = ErrorBody(message: Option<string>, errors: Option<seq<Option<string>>>)

  /** A rejected request: `err.response.data` (None when no response arrived) and `err.message`. */
  datatype Failure = Failure(response: Option<ErrorBody>, errMessage: string)

  /** `err.response?.data?.message` */
  function ServerMessage(f: Failure): Option<string>
  {
    if f.response.Some? then f.response.value.message else None
  }

  /** The settled result of one awaited HTTP call: its `res.data`, or the error thrown. */
  datatype Outcome<+T> = Ok(data: T) | Err(failure: Failure)
}
