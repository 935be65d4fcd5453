/** The structural rule the program applies to decide whether a line is a
    Shaba number (the Iranian IBAN): 26 characters, "IR", what the program
    takes as the bank code (characters 2 to 4) starting with '0', upper-case
    ASCII letters and digits only. No MOD 97-10 check digits. */
module Validator {

  /** What a Java call that may throw gives back. */
  datatype Outcome<T> = Returns(value: T) | Throws(exception: JavaException)

  /** The only exception the validator can raise. */
  datatype JavaException = StringIndexOutOfBounds

  const CountryCode: string := "IR"
  const ShabaLength: nat := 26

  /** Java's `String.startsWith`: `prefix` is no longer than `s` and agrees
      with it character by character. */
  predicate StartsWith(s: string, prefix: string): (b: bool)
    ensures b <==> |prefix| <= |s| && forall i :: 0 <= i < |prefix| ==> s[i] == prefix[i]
  {
    |prefix| <= |s| && s[..|prefix|] == prefix
  }

  /** Java's `String.substring(begin, end)`, which throws when the range is outside `s`. */
  function Substring(s: string, begin: int, end: int): (r: Outcome<string>)
    ensures r.Returns? <==> 0 <= begin <= end <= |s|
    ensures r.Returns? ==> |r.value| == end - begin
  {
    if 0 <= begin <= end <= |s| then Returns(s[begin..end]) else Throws(StringIndexOutOfBounds)
  }

  /** One character of the class `[A-Z0-9]`. */
  predicate IsUpperAlnum(c: char) {
    'A' <= c <= 'Z' || '0' <= c <= '9'
  }

  /** Java's `s.matches("[A-Z0-9]+")`: the whole string, and at least one character. */
  predicate MatchesUpperAlnum(s: string): (b: bool)
    ensures b <==> s != [] && forall c :: c in s ==> IsUpperAlnum(c)
  {
    |s| > 0 && forall i :: 0 <= i < |s| ==> IsUpperAlnum(s[i])
  }

  /** `isValidShaba` as the source writes it: the bank-code substring is taken
      before the length test, so a line shorter than 5 characters throws. */
  function IsValidShabaAsWritten(s: string): (r: Outcome<bool>)
    ensures r.Throws? <==> |s| < 5
    ensures r.Returns? ==> r.value == IsValidShaba(s)
  {
    match Substring(s, 2, 5)
    case Throws(e) => Throws(e)
    case Returns(bankCode) =>
      Returns(|s| == ShabaLength && StartsWith(s, CountryCode) && StartsWith(bankCode, "0")
              && MatchesUpperAlnum(s))
  }

  /** `isValidShaba` with the length test first: total, never throws.
      The result spells the rule out character by character. */
  function IsValidShaba(s: string): (b: bool)
    ensures b <==> |s| == 26 && s[0] == 'I' && s[1] == 'R' && s[2] == '0'
                   && forall i :: 0 <= i < |s| ==> IsUpperAlnum(s[i])
  {
    |s| == ShabaLength && StartsWith(s, CountryCode) && StartsWith(s[2..5], "0")
    && MatchesUpperAlnum(s)
  }

  /** Where the source does not throw, it agrees with the guarded validator;
      every length other than 26 is rejected. */
  lemma AsWrittenAgreesWhenDefined(s: string)
    requires |s| >= 5
    ensures IsValidShabaAsWritten(s) == Returns(IsValidShaba(s))
    ensures |s| != ShabaLength ==> IsValidShabaAsWritten(s) == Returns(false)
  {
  }

  /** An empty line, or the line "bad", makes the source throw where the
      guarded validator simply rejects it. */
  lemma ShortLinesThrow()
    ensures IsValidShabaAsWritten("") == Throws(StringIndexOutOfBounds) && !IsValidShaba("")
    ensures IsValidShabaAsWritten("bad") == Throws(StringIndexOutOfBounds) && !IsValidShaba("bad")
  {
  }
}
