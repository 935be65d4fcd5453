/** The bank directory: a closed table from 3-character bank codes to bank
    names, with a fixed name for every other code. */
module Banks {
  import opened Validator

  const UnknownBank: string := "بانک نا مشخص"

  /** The 19 codes the directory knows. */
  const KnownCodes: set<string> := {
    "020", "055", "054", "057", "021", "018", "051", "013", "056", "015",
    "058", "019", "011", "053", "016", "010", "014", "012", "017"
  }

  predicate IsDigit(c: char) {
    '0' <= c <= '9'
  }

  /** A bank code as the validator accepts it, made of digits only. */
  predicate IsNumericBankCode(code: string) {
    |code| == 3 && StartsWith(code, "0") && forall i :: 0 <= i < |code| ==> IsDigit(code[i])
  }

  /** `getBankName`: exactly the 19 known codes get a name of their own. */
  function BankName(code: string): (name: string)
    ensures name == UnknownBank <==> code !in KnownCodes
  {
    match code
    case "020" => "بانک توسعه صادرات"
    case "055" => "بانک اقتصاد نوین"
    case "054" => "بانک پارسیان"
    case "057" => "بانک پاسارگاد"
    case "021" => "پست بانک ایران"
    case "018" => "بانک تجارت"
    case "051" => "موسسه اعتباری توسعه"
    case "013" => "بانک رفاه"
    case "056" => "بانک سامان"
    case "015" => "بانک سپه"
    case "058" => "بانک سرمایه"
    case "019" => "بانک صادرات ایران"
    case "011" => "بانک صنعت و معدن"
    case "053" => "بانک کارآفرین"
    case "016" => "بانک کشاورزی"
    case "010" => "بانک مرکزی"
    case "014" => "بانک مسکن"
    case "012" => "بانک ملت"
    case "017" => "بانک ملی"
    case _ => UnknownBank
  }

  /** Every code with a name of its own is three digits starting with '0',
      so it also passes the validator's bank-code rule. */
  lemma NamedCodesAreNumeric(code: string)
    requires BankName(code) != UnknownBank
    ensures IsNumericBankCode(code)
  {
  }
}
