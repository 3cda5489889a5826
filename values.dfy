/** Python values as they reach the connector options, the client options and
    the call pipeline, the error taxonomy, and the few string operations the
    decision rules use. */
module Values {

  datatype Option<+T> = None | Some(value: T)

  datatype Result<+T, +E> = Ok(value: T) | Err(error: E)

  /** A Python value, tagged by its runtime class. Floats are only ever
      type-tested, never computed with, so the tag carries no payload. */
  datatype Value =
    | Bool(b: bool)
    | Int(i: int)
    | Float
    | Str(s: string)
    | SslContext            // an ssl.SSLContext instance
    | NoneValue
    | Other(text: string)   // any other object, with what str() gives for it

  /** An opaque reference to a collaborator the model never looks into
      (credentials, the model loader, the HTTP session, a handler). */
  datatype Handle = Handle(id: nat)

  /** isinstance(v, bool) */
  predicate IsBool(v: Value) { v.Bool? }

  /** isinstance(v, int): bool is a subclass of int, so True and False pass. */
  predicate IsInt(v: Value) { v.Int? || v.Bool? }

  /** isinstance(v, float) */
  predicate IsFloat(v: Value) { v.Float? }

  /** isinstance(v, ssl.SSLContext) */
  predicate IsSslContext(v: Value) { v.SslContext? }

  /** The exceptions the modelled code raises or lets through. */
  datatype Error =
    | ParamValidationError(report: string)
    | ClientError(response: map<string, Value>, operationName: string)
    | OperationNotPageableError(operationName: string)
    | OperationNotFoundError(operationName: string)
    | KeyError(key: string)
    | TransportError(reason: string)

  /** dict.get(key, default) */
  function Get(m: map<string, Value>, key: string, default: Value): Value {
    if key in m then m[key] else default
  }

  function LowerChar(c: char): char {
    if 'A' <= c <= 'Z' then (c as int + 32) as char else c
  }

  /** str.lower() on the ASCII letters. No other character lowers to one of
      the letters of "false", so comparing the result with "false" is exact. */
  function Lower(s: string): (r: string)
    ensures |r| == |s|
    ensures forall i :: 0 <= i < |s| ==> r[i] == LowerChar(s[i])
  {
    if s == [] then [] else [LowerChar(s[0])] + Lower(s[1..])
  }

  /** Whether c is an ASCII lower-case letter. */
  predicate IsLowerLetter(c: char) { 'a' <= c <= 'z' }

  /** s spells t letter by letter, each letter of t in either case: the
      upper-case form of a letter lies 32 code points below it. */
  predicate MatchesIgnoringCase(s: string, t: string) {
    |s| == |t| && forall i :: 0 <= i < |s| ==>
      s[i] == t[i] || (IsLowerLetter(t[i]) && s[i] as int == t[i] as int - 32)
  }

  /** Lowering a string gives a word without upper-case letters exactly
      when the string spells that word in some mix of cases. */
  lemma LowerEqualsIff(s: string, t: string)
    requires forall i :: 0 <= i < |t| ==> !('A' <= t[i] <= 'Z')
    ensures Lower(s) == t <==> MatchesIgnoringCase(s, t)
  {
  }

  /** Whether str(v).lower() == "false". Only a string, or an object whose
      str() is such a string, can read as "false"; str(False) is "False", and
      ints, floats, None and SSL contexts print as something else entirely. */
  predicate StrIsFalse(v: Value): (r: bool)
    ensures r <==> || (v.Str? && MatchesIgnoringCase(v.s, "false"))
                   || (v.Other? && MatchesIgnoringCase(v.text, "false"))
                   || v == Bool(false)
  {
    match v
    case Str(s) => LowerEqualsIff(s, "false"); Lower(s) == "false"
    case Other(text) => LowerEqualsIff(text, "false"); Lower(text) == "false"
    case Bool(b) => !b
    case _ => false
  }
}
