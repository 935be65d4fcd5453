# Shaba number validator

A Dafny model of the engine of `ShabaValidator`. The program reads candidate
Iranian account numbers ("Shaba" numbers, the IBAN format of ISO 13616),
one per line, and sorts them into a valid and an invalid list. It writes each
list to a text file, one number per line, and shows a table of the valid
numbers: country, bank name, bank code and BBAN. The bank name comes from a
fixed table of 19 bank codes.

Modules:

- `Validator`: the structural rule the program applies. A line passes when it
  has 26 characters, starts with "IR", has '0' at character 2 (the first
  character of what the program takes as the bank code), and uses only
  `[A-Z0-9]`. There is no ISO 7064 MOD 97-10 check-digit test, because the
  program does not do one. The rule comes in two versions.
  `IsValidShabaAsWritten` follows the source and can throw. `IsValidShaba`
  tests the length first and never throws; the rest of the model uses it.
- `Banks`: the bank-code table (`getBankName`) as a `match` over strings. The
  Persian names are copied verbatim.
- `Fields`: the program takes characters `[2,5)` as the bank code and
  `[5,end)` as the BBAN. Putting "IR" and these two fields back together
  gives the number again. This module also has the report loop, which builds
  one row per valid number.
- `IbanLayout`: the field layout of ISO 13616, which the program's offsets do
  not follow. Under ISO 13616, characters `[2,4)` are the check digits,
  `[4,7)` is the bank code (all 19 table codes fit there), and the BBAN starts
  at character 4. This module has a validator and an extraction that use
  these offsets. It also has two example numbers on which the program goes
  wrong (see Findings).
- `Batch`: the read loop of `main`. Each line goes to `valid` or `invalid`.
  The two outputs are the in-order filters of the input by the validator.
- `Lines`: the text that `writeToFile` writes (each line followed by '\n'),
  and the lines that `BufferedReader.readLine` returns from a text. The
  reader ends a line at '\n', '\r' or "\r\n". A line is read back unchanged
  if it has no line break in it.
- `App`: the data flow of `main`, from the input text to the two written
  texts and the report rows.

## Model

| member | source | states |
|---|---|---|
| `Validator.StartsWith` | BankShebaAccess/src/ShabaValidator.java:174 | Java's `startsWith`: true exactly when the prefix is no longer than the string and agrees with it character by character |
| `Validator.MatchesUpperAlnum` | BankShebaAccess/src/ShabaValidator.java:174 | Java's `matches("[A-Z0-9]+")`: true exactly when the string is non-empty and every character in it is an upper-case ASCII letter or a digit |
| `Validator.Substring` | BankShebaAccess/src/ShabaValidator.java:173 | Java's `substring(begin, end)`: it returns exactly when `0 <= begin <= end <= length`, and then the result has `end - begin` characters; otherwise it throws |
| `Validator.IsValidShabaAsWritten` | BankShebaAccess/src/ShabaValidator.java:172-175 | throws exactly when the line is shorter than 5 characters; otherwise it returns the guarded validator's verdict |
| `Validator.IsValidShaba` | BankShebaAccess/src/ShabaValidator.java:172-175 | true exactly when the length is 26, the line starts with "IR", character 2 is '0', and every character is an upper-case ASCII letter or a digit |
| `Validator.AsWrittenAgreesWhenDefined` | BankShebaAccess/src/ShabaValidator.java:173-174 | for lines of 5 or more characters, the source's validator returns the guarded verdict; any length other than 26 returns false |
| `Validator.ShortLinesThrow` | BankShebaAccess/src/ShabaValidator.java:173 | on the empty line and on "bad", the source throws, while the guarded validator rejects |
| `Banks.BankName` | BankShebaAccess/src/ShabaValidator.java:120-163 | the unknown-bank name is returned exactly for codes outside the 19 listed ones |
| `Banks.NamedCodesAreNumeric` | BankShebaAccess/src/ShabaValidator.java:120-163 | a code with a name of its own is three digits starting with '0', so it meets the validator's bank-code rule |
| `Fields.Extract` | BankShebaAccess/src/ShabaValidator.java:165-168 | the bank code has 3 characters; the BBAN is the rest; the first two characters followed by the two fields give back the line |
| `Fields.ExtractThenAssemble` | BankShebaAccess/src/ShabaValidator.java:166-167 | for a valid number, the BBAN has 21 characters, the bank code starts with '0', and "IR" + bank code + BBAN is the number |
| `Fields.AssembleThenExtract` | BankShebaAccess/src/ShabaValidator.java:96-97 | fields with a 3-character bank code are recovered unchanged from the number they assemble into |
| `Fields.Row` | BankShebaAccess/src/ShabaValidator.java:95-99 | a row has the fixed country label, the bank code and BBAN extracted from the number, and the bank name of that code |
| `Fields.BuildReport` | BankShebaAccess/src/ShabaValidator.java:94-100 | one row per number, in order; each row carries the country label and the name of its own bank code; for valid numbers the row's fields reassemble into the number |
| `IbanLayout.IsValidShabaIso` | BankShebaAccess/src/ShabaValidator.java:173-174 | the corrected rule: true exactly when the length is 26, the line starts with "IR", character 4 (the first character of the ISO bank code) is '0', and every character is an upper-case ASCII letter or a digit |
| `IbanLayout.ExtractIso` | BankShebaAccess/src/ShabaValidator.java:166-167 | the corrected extraction: two check digits, a 3-character bank code and the rest, which after the first two characters give back the line |
| `IbanLayout.ExtractIsoThenAssemble` | BankShebaAccess/src/ShabaValidator.java:166-167 | for a number valid under the corrected rule, the bank code starts with '0', the rest has 19 characters, and "IR" + check digits + bank code + rest is the number |
| `IbanLayout.AssembleIsoThenExtract` | BankShebaAccess/src/ShabaValidator.java:96-97 | ISO fields of the right widths are recovered unchanged from the number they assemble into |
| `IbanLayout.SourceBankCodeSpansCheckDigits` | BankShebaAccess/src/ShabaValidator.java:96 | on every number the program accepts, its bank code is the two check digits followed by the first character of the ISO bank code |
| `IbanLayout.ExampleValidity` | BankShebaAccess/src/ShabaValidator.java:174 | the program's rule rejects the Parsian example number and accepts the Melli one; the corrected rule accepts both |
| `IbanLayout.ExampleBankCodes` | BankShebaAccess/src/ShabaValidator.java:96-97 | the program reads "820" and "020" as the bank codes of the two examples, whose ISO bank codes are "054" and "017" |
| `IbanLayout.SourceOffsetsMisread` | BankShebaAccess/src/ShabaValidator.java:96-98 | the program rejects a Parsian Bank number that the corrected rule accepts and names correctly, and it names the Melli number from a different table entry than its own bank code |
| `Batch.Select` | BankShebaAccess/src/ShabaValidator.java:70-77 | the filter is no longer than its input, and each element is an input line of the requested validity |
| `Batch.SelectAppend` | BankShebaAccess/src/ShabaValidator.java:70-77 | filtering a concatenation gives the concatenation of the filtered parts, so input order is kept |
| `Batch.PartitionSizes` | BankShebaAccess/src/ShabaValidator.java:70-77 | the valid and invalid lists together are exactly as long as the input |
| `Batch.PartitionMultiset` | BankShebaAccess/src/ShabaValidator.java:70-77 | the valid and invalid lists together hold every input line exactly as often as the input does |
| `Batch.EachLineInExactlyOne` | BankShebaAccess/src/ShabaValidator.java:71-75 | an input line is in the list its validity selects and never in the other one |
| `Batch.Classify` | BankShebaAccess/src/ShabaValidator.java:70-77 | the loop's two lists are the in-order filters of the input by the validator and by its negation, and their lengths add up to the input's |
| `Lines.Join` | BankShebaAccess/src/ShabaValidator.java:179-181 | the written text is empty exactly when there are no lines, and otherwise ends with '\n' |
| `Lines.JoinAppend` | BankShebaAccess/src/ShabaValidator.java:179-181 | writing one more line appends that line and its '\n' to the text |
| `Lines.WriteContent` | BankShebaAccess/src/ShabaValidator.java:177-185 | the loop writes each line followed by '\n', in order; when no line holds a line break, reading the text back gives the lines |
| `Lines.LineEnd` | BankShebaAccess/src/ShabaValidator.java:70 | the first line ends at the first '\n' or '\r', or at the end of the text, and holds no line break |
| `Lines.ReadLines` | BankShebaAccess/src/ShabaValidator.java:70 | no line returned by `readLine` contains a line break |
| `Lines.LineEndOfLine` | BankShebaAccess/src/ShabaValidator.java:180 | the first line of a written line without breaks ends right at its '\n' |
| `Lines.ReadJoin` | BankShebaAccess/src/ShabaValidator.java:179-181 | reading the written text back gives the original lines when none holds a line break |
| `Lines.ReadWriteRead` | BankShebaAccess/src/ShabaValidator.java:70-79 | lines that were read, written and read again come back unchanged |
| `App.ProcessInput` | BankShebaAccess/src/ShabaValidator.java:63-100 | the invalid and valid texts are the in-order partitions of the input lines, each line followed by '\n', and read back as those partitions; the report has one row per valid line, in order, with the country label, the bank name of its code, and fields that reassemble into its line |

## Left out

- Logging (lines 26-59 and 81): the logger, its handlers and the Tehran-time
  timestamps have no logical content.
- File I/O: opening `input.txt` and the two output files, and I/O errors.
  The input is the text of the file, and each output is the text that would
  be written. The model does not cover what happens when `input.txt` is
  missing. In that case `validShabas` stays null and the report loop fails on
  it.
- The Swing window (lines 84-117, apart from the report rows it shows): frame,
  table, column widths and the close button.
- The `System.out.println` in `extractBankCodeAndAccountNumber` (line 169).
  Only the extraction is modelled.
- `PersianDateConverter` (lines 186-191): it is never called.
- Lengths: Java counts `String.length()` in UTF-16 code units, and Dafny
  counts characters. The difference only matters for non-BMP characters, and
  those can never be part of a valid number. It can only change which lines
  shorter than 5 characters make the source throw.
- Batch.Classify: uses the guarded validator, so a line shorter than 5
  characters goes to the invalid list. The source's loop crashes on such a
  line (see Findings).
- App.ProcessInput: uses the guarded validator, so it does not model the
  crash that a line shorter than 5 characters causes (see Findings). It also
  keeps the program's field offsets and not the ISO layout of `IbanLayout`.
  The validity rule and the report then stay those of the program.
- Fields.BuildReport: keeps the program's offsets (`[2,5)` and `[5,end)`),
  as the source does. The corrected offsets are stated and proved in
  `IbanLayout`, but the report is not rebuilt on them.

## Findings

| source | as written | input that shows it | evidently intended | confidence | as-written member | corrected member |
|---|---|---|---|---|---|---|
| BankShebaAccess/src/ShabaValidator.java:173 | `substring(2, 5)` runs before the length test, so a line shorter than 5 characters throws `StringIndexOutOfBoundsException`. `main` only catches `IOException`, so the program stops before it writes either file | an empty line (for example a blank line at the end of `input.txt`), or the line "bad" | reject the line as invalid | high, not executed | `Validator.IsValidShabaAsWritten`, `Validator.ShortLinesThrow` | `Validator.IsValidShaba` |
| BankShebaAccess/src/ShabaValidator.java:96 | `substring(2, 5)` is taken as the bank code (lines 96, 166 and 173-174). Under ISO 13616, characters 2 and 3 are the check digits and the bank code is characters 4 to 6. The validator therefore demands that the check digits start with '0', and the report names the bank from the wrong characters | "IR820540102680020817909002" (Parsian Bank, code 054) is rejected; "IR020170000000000000000001" (code 017, Melli Bank) is accepted and named from the entry for "020" | read the bank code at characters 4 to 6, for both the '0' rule and the name lookup | plausible, not executed | `IbanLayout.SourceOffsetsMisread`, `IbanLayout.SourceBankCodeSpansCheckDigits` | `IbanLayout.IsValidShabaIso`, `IbanLayout.ExtractIso` |
