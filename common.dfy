/** Values shared by every part of the SDK model: failure-carrying results, the
    exceptions the SDK raises, JSON-like dictionaries and ASCII lower-casing. */
module Common {

  newtype byte = x: int | 0 <= x < 256
  type Bytes = seq<byte>

  datatype Option<+T> = None | Some(value: T)

  /** The Python exceptions the modelled code raises or lets through. */
  datatype Error =
    | WebhookVerificationError(message: string)
    | RuntimeError(message: string)
    | ValueError(message: string)
    | TypeError(message: string)
    | DecodeError(message: string)   // binascii.Error, UnicodeDecodeError, JSON syntax errors
    | RequestError(message: string)  // a failure reported by a remote service

  /** A value that either succeeded or raised one of the exceptions above. */
  datatype Result<+R> = Success(value: R) | Failure(error: Error) {
    predicate IsFailure() { Failure? }
    function PropagateFailure<U>(): Result<U>
      requires Failure?
    {
      Failure(error)
    }
    function Extract(): R
      requires Success?
    {
      value
    }
  }

  /** A JSON-like Python value: what `to_dict` returns and what dictionaries hold.
      Floats are carried as reals and never computed with. */
  datatype Value =
    | Null
    | Bool(b: bool)
    | Int(i: int)
    | Num(r: real)
    | Str(s: string)
    | List(items: seq<Value>)
    | Object(fields: map<string, Value>)

  predicate IsUpperAscii(c: char) { 'A' <= c <= 'Z' }

  /** No character of `s` is an upper-case ASCII letter. */
  predicate NoUpperAscii(s: string) {
    forall i :: 0 <= i < |s| ==> !IsUpperAscii(s[i])
  }

  function LowerChar(c: char): (d: char)
    ensures !IsUpperAscii(d)
    ensures IsUpperAscii(c) ==> d as int == c as int + 32
    ensures !IsUpperAscii(c) ==> d == c
  {
    if IsUpperAscii(c) then (c as int + 32) as char else c
  }

  /** Python's `str.lower()` restricted to ASCII letters. */
  function LowerAscii(s: string): (r: string)
    ensures |r| == |s|
    ensures forall i :: 0 <= i < |s| ==> r[i] == LowerChar(s[i])
    ensures NoUpperAscii(r)
    ensures NoUpperAscii(s) ==> r == s
  {
    seq(|s|, i requires 0 <= i < |s| => LowerChar(s[i]))
  }
}
