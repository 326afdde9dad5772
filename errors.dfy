/** core/errors.py: the exception raised for a duration token that cannot be used. */
module Errors {

  /** `DurationError(duration)`: the constructor keeps the offending token as it was given. */
  datatype DurationError = DurationError(duration: string)

  /** Fixed text that follows the quoted token in every message. */
  const Suffix: string := " is not a valid duration, please try again."

  /** `str(error)`: the token between backticks, then the fixed suffix. */
  function Message(e: DurationError): (s: string)
    ensures |s| == |e.duration| + 45
    ensures s[0] == '`' && s[|e.duration| + 1] == '`'
    ensures s[1..|e.duration| + 1] == e.duration
    ensures s[|e.duration| + 2..] == Suffix
  {
    "`" + e.duration + "`" + Suffix
  }

  /** Reads the token back out of a message produced by `Message`. */
  function TokenOf(s: string): string
    requires |s| >= 45
  {
    s[1..|s| - 44]
  }

  /** The message loses nothing: the stored token can be recovered from it. */
  lemma TokenRoundTrip(e: DurationError)
    ensures TokenOf(Message(e)) == e.duration
  {
  }

  /** Two errors give the same message only if they carry the same token. */
  lemma {:induction false} MessageInjective(a: DurationError, b: DurationError)
    requires Message(a) == Message(b)
    ensures a == b
  {
    TokenRoundTrip(a);
    TokenRoundTrip(b);
  }
}
