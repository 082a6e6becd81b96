/** Values shared by the session layer, the guarded fetch and the scanner:
    optional values, results carrying the error a JavaScript call would throw,
    and the few string operations the source relies on. */
module Common {

  /** `null` / `undefined` versus a present value. */
  datatype Option<+T> = None | Some(value: T) {
    /** `x || fallback` for a value that is truthy whenever it is present. */
    function GetOr(fallback: T): T {
      match this
      case Some(v) => v
      case None => fallback
    }
  }

  /** The outcome of a call that may throw. */
  datatype Result<+T> = Ok(value: T) | Err(error: Error)

  /** The errors the core throws or lets through. */
  datatype Error =
    | StillChallenged(url: string)   // thrown by the guarded fetch after a failed retry
    | UnknownBaseUrl(key: string)    // thrown by the base-URL lookup
    | CannotRead(property: string)   // the TypeError of reading a property of `undefined`
    | External(message: string)      // a solver, transport or JSON failure, passed through

  /** The `message` of the thrown `Error`; the error throttle is keyed by it. */
  function Message(e: Error): string {
    match e
    case StillChallenged(url) => "[WAF] Still getting challenge after re-solve for " + url
    case UnknownBaseUrl(key) => "Unknown baseUrl key: \"" + key + "\""
    case CannotRead(p) => "Cannot read properties of undefined (reading '" + p + "')"
    case External(m) => m
  }

  /** The lower-case form of an ASCII letter; every other character is kept. */
  function LowerChar(c: char): char {
    if 'A' <= c <= 'Z' then (c as int + 32) as char else c
  }

  /** `toLowerCase()`, restricted to ASCII letters. */
  function Lower(s: string): (r: string)
    ensures |r| == |s|
    ensures forall i :: 0 <= i < |s| ==> r[i] == LowerChar(s[i])
    ensures forall i :: 0 <= i < |s| ==> !('A' <= r[i] <= 'Z')
  {
    seq(|s|, i requires 0 <= i < |s| => LowerChar(s[i]))
  }

  /** Lower-casing twice is lower-casing once. */
  lemma LowerIdempotent(s: string)
    ensures Lower(Lower(s)) == Lower(s)
  {
    assert forall i :: 0 <= i < |s| ==> LowerChar(LowerChar(s[i])) == LowerChar(s[i]);
  }

  /** `t` occurs in `s` at some position: the meaning of `s.includes(t)`. */
  ghost predicate Occurs(t: string, s: string) {
    exists i :: OccursAt(t, s, i)
  }

  /** `t` occurs in `s` starting at index `i`. */
  ghost predicate OccursAt(t: string, s: string, i: int) {
    0 <= i <= |s| - |t| && s[i..i + |t|] == t
  }

  lemma OccursTail(s: string, t: string)
    requires |t| <= |s| && s[..|t|] != t
    ensures Occurs(t, s) <==> Occurs(t, s[1..])
  {
    if Occurs(t, s) {
      var i :| OccursAt(t, s, i);
      assert i != 0;
      assert s[1..][i - 1..i - 1 + |t|] == s[i..i + |t|];
      assert OccursAt(t, s[1..], i - 1);
    }
    if Occurs(t, s[1..]) {
      var i :| OccursAt(t, s[1..], i);
      assert s[i + 1..i + 1 + |t|] == s[1..][i..i + |t|];
      assert OccursAt(t, s, i + 1);
    }
  }

  /** `s.includes(t)`, computed by trying each position from the left. */
  function Includes(s: string, t: string): (b: bool)
    ensures b <==> Occurs(t, s)
    decreases |s|
  {
    if |t| > |s| then false
    else if s[..|t|] == t then assert OccursAt(t, s, 0); true
    else OccursTail(s, t); Includes(s[1..], t)
  }
}
