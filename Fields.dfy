/** Splitting a Shaba number the way the program does: it takes characters
    2 to 4 as the bank code and character 5 to the end as the BBAN. Under
    ISO 13616 these offsets are not the bank code and the BBAN (see the
    IbanLayout module). Also the report row built from the two fields. */
module Fields {
  import opened Validator
  import opened Banks

  datatype ShabaFields = ShabaFields(bankCode: string, bban: string)

  /** One row of the report table: country, bank name, bank code, BBAN. */
  datatype ReportRow = ReportRow(country: string, bankName: string, bankCode: string, bban: string)

  const CountryLabel: string := "IR - ایران"

  /** `substring(2, 5)` and `substring(5)`: the two fields are three characters
      and the rest, and put back behind the first two characters they give `s`. */
  function Extract(s: string): (f: ShabaFields)
    requires |s| >= 5
    ensures |f.bankCode| == 3 && |f.bban| == |s| - 5
    ensures s == s[..2] + f.bankCode + f.bban
  {
    ShabaFields(s[2..5], s[5..])
  }

  /** The Shaba number a pair of fields stands for. */
  function Assemble(f: ShabaFields): string {
    CountryCode + f.bankCode + f.bban
  }

  /** A valid Shaba number is "IR", a bank code starting with '0' and a
      21-character BBAN, and reassembling its fields gives it back. */
  lemma ExtractThenAssemble(s: string)
    requires IsValidShaba(s)
    ensures |Extract(s).bban| == 21 && StartsWith(Extract(s).bankCode, "0")
    ensures Assemble(Extract(s)) == s
  {
    assert s[..2] == CountryCode;
  }

  /** Fields with a 3-character bank code come back unchanged from the
      Shaba number they assemble into. */
  lemma AssembleThenExtract(f: ShabaFields)
    requires |f.bankCode| == 3
    ensures Extract(Assemble(f)) == f
  {
    var s := Assemble(f);
    assert s[2..5] == f.bankCode;
    assert s[5..] == f.bban;
  }

  /** The report row of one Shaba number (one iteration of the report loop). */
  function Row(s: string): (row: ReportRow)
    requires |s| >= 5
    ensures row.country == CountryLabel
    ensures row.bankName == BankName(row.bankCode)
    ensures row.bankCode == Extract(s).bankCode && row.bban == Extract(s).bban
  {
    var f := Extract(s);
    ReportRow(CountryLabel, BankName(f.bankCode), f.bankCode, f.bban)
  }

  /** The report loop: one row per Shaba number, in order. Each row names
      the bank of its own code, and on valid numbers its fields reassemble
      into the number. */
  method BuildReport(shabas: seq<string>) returns (rows: seq<ReportRow>)
    requires forall k :: 0 <= k < |shabas| ==> |shabas[k]| >= 5
    ensures |rows| == |shabas|
    ensures forall k :: 0 <= k < |rows| ==> rows[k] == Row(shabas[k])
    ensures forall k :: 0 <= k < |rows| ==>
              rows[k].country == CountryLabel && rows[k].bankName == BankName(rows[k].bankCode)
    ensures forall k :: 0 <= k < |rows| && IsValidShaba(shabas[k]) ==>
              Assemble(ShabaFields(rows[k].bankCode, rows[k].bban)) == shabas[k]
  {
    rows := [];
    var i := 0;
    while i < |shabas|
      invariant 0 <= i <= |shabas|
      invariant |rows| == i
      invariant forall k :: 0 <= k < i ==> rows[k] == Row(shabas[k])
    {
      var shaba := shabas[i];
      var bankCode := shaba[2..5];
      var accountNumber := shaba[5..];
      var bankName := BankName(bankCode);
      rows := rows + [ReportRow(CountryLabel, bankName, bankCode, accountNumber)];
      i := i + 1;
    }
    forall k | 0 <= k < |rows| && IsValidShaba(shabas[k])
      ensures Assemble(ShabaFields(rows[k].bankCode, rows[k].bban)) == shabas[k]
    {
      ExtractThenAssemble(shabas[k]);
    }
  }
}
