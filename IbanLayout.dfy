/** The field layout of ISO 13616 for an Iranian IBAN: "IR", two check
    digits (characters 2 and 3), the bank code (characters 4 to 6) and the
    rest of the account number. The program reads its bank code at
    characters 2 to 4 instead; this module states the layout it evidently
    meant and shows where the two disagree. */
module IbanLayout {
  import opened Validator
  import opened Banks
  import opened Fields

  datatype IbanFields = IbanFields(checkDigits: string, bankCode: string, account: string)

  /** The validator with its bank-code rule applied to the ISO bank code. */
  function IsValidShabaIso(s: string): (b: bool)
    ensures b <==> |s| == 26 && s[0] == 'I' && s[1] == 'R' && s[4] == '0'
                   && forall i :: 0 <= i < |s| ==> IsUpperAlnum(s[i])
  {
    |s| == ShabaLength && StartsWith(s, CountryCode) && StartsWith(s[4..7], "0")
    && MatchesUpperAlnum(s)
  }

  /** The ISO fields: two check digits, a 3-character bank code, the rest. */
  function ExtractIso(s: string): (f: IbanFields)
    requires |s| >= 7
    ensures |f.checkDigits| == 2 && |f.bankCode| == 3 && |f.account| == |s| - 7
    ensures s == s[..2] + f.checkDigits + f.bankCode + f.account
  {
    IbanFields(s[2..4], s[4..7], s[7..])
  }

  /** The IBAN a set of ISO fields stands for. */
  function AssembleIso(f: IbanFields): string {
    CountryCode + f.checkDigits + f.bankCode + f.account
  }

  /** A number valid under the ISO layout splits into two check digits, a
      bank code starting with '0' and a 19-character rest, which reassemble it. */
  lemma ExtractIsoThenAssemble(s: string)
    requires IsValidShabaIso(s)
    ensures |ExtractIso(s).account| == 19 && StartsWith(ExtractIso(s).bankCode, "0")
    ensures AssembleIso(ExtractIso(s)) == s
  {
    assert s[..2] == CountryCode;
  }

  /** ISO fields of the right widths come back unchanged from their IBAN. */
  lemma AssembleIsoThenExtract(f: IbanFields)
    requires |f.checkDigits| == 2 && |f.bankCode| == 3
    ensures ExtractIso(AssembleIso(f)) == f
  {
    var s := AssembleIso(f);
    assert s[2..4] == f.checkDigits;
    assert s[4..7] == f.bankCode;
    assert s[7..] == f.account;
  }

  /** On a valid number the program's bank code is the two check digits
      followed by the first character of the ISO bank code. */
  lemma SourceBankCodeSpansCheckDigits(s: string)
    requires IsValidShaba(s)
    ensures Extract(s).bankCode == ExtractIso(s).checkDigits + ExtractIso(s).bankCode[..1]
  {
    assert s[2..5] == s[2..4] + s[4..5];
  }

  /** A Parsian Bank number: check digits "82", bank code 054. */
  const ParsianExample: string := "IR820540102680020817909002"

  /** A Melli Bank number: check digits "02", bank code 017. */
  const MelliExample: string := "IR020170000000000000000001"

  lemma ExamplesAreWellFormed()
    ensures MatchesUpperAlnum(ParsianExample) && MatchesUpperAlnum(MelliExample)
    ensures ParsianExample[..2] == CountryCode && MelliExample[..2] == CountryCode
  {
    assert ParsianExample[..2] == [ParsianExample[0], ParsianExample[1]];
    assert MelliExample[..2] == [MelliExample[0], MelliExample[1]];
  }

  /** The two example numbers under the program's validator and under the ISO one. */
  lemma ExampleValidity()
    ensures !IsValidShaba(ParsianExample) && IsValidShabaIso(ParsianExample)
    ensures IsValidShaba(MelliExample) && IsValidShabaIso(MelliExample)
  {
    ExamplesAreWellFormed();
  }

  /** The bank codes the program and the ISO layout read from the two example numbers. */
  lemma ExampleBankCodes()
    ensures Extract(ParsianExample).bankCode == "820" && ExtractIso(ParsianExample).bankCode == "054"
    ensures Extract(MelliExample).bankCode == "020" && ExtractIso(MelliExample).bankCode == "017"
  {
    var p, m := ParsianExample, MelliExample;
    assert p[2] == '8' && p[3] == '2' && p[4] == '0' && p[5] == '5' && p[6] == '4';
    assert p[2..5] == [p[2], p[3], p[4]] && p[4..7] == [p[4], p[5], p[6]];
    assert m[2] == '0' && m[3] == '2' && m[4] == '0' && m[5] == '1' && m[6] == '7';
    assert m[2..5] == [m[2], m[3], m[4]] && m[4..7] == [m[4], m[5], m[6]];
  }

  /** The program rejects the Parsian Bank number, because its check digits
      "82" do not start with '0'; under the ISO layout it is valid and named
      from its bank code 054. The program accepts the Melli Bank number and
      names it from the table entry for "020" instead of its bank code 017. */
  lemma SourceOffsetsMisread()
    ensures !IsValidShaba(ParsianExample) && IsValidShabaIso(ParsianExample)
    ensures BankName(ExtractIso(ParsianExample).bankCode) == "بانک پارسیان"
    ensures IsValidShaba(MelliExample)
    ensures BankName(Extract(MelliExample).bankCode) != BankName(ExtractIso(MelliExample).bankCode)
  {
    ExampleValidity();
    ExampleBankCodes();
    assert BankName("054") == "بانک پارسیان";
    assert BankName("020") != BankName("017");
  }
}
