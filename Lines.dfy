/** The text the program writes for a list of lines (each followed by
    '\n'), and the lines `BufferedReader.readLine` reads back from a text. */
module Lines {

  /** `readLine` ends a line at '\n', at '\r', or at "\r\n". */
  predicate IsLineBreak(c: char) {
    c == '\n' || c == '\r'
  }

  predicate HasNoLineBreak(s: string) {
    forall i :: 0 <= i < |s| ==> !IsLineBreak(s[i])
  }

  /** The text `writeToFile` writes: each line followed by '\n'. */
  function Join(lines: seq<string>): (text: string)
    ensures text == "" <==> lines == []
    ensures text != "" ==> text[|text| - 1] == '\n'
  {
    if lines == [] then "" else lines[0] + "\n" + Join(lines[1..])
  }

  /** Appending one line appends it and its '\n' to the text. */
  lemma {:induction false} JoinAppend(lines: seq<string>, x: string)
    ensures Join(lines + [x]) == Join(lines) + x + "\n"
  {
    if lines == [] {
      assert lines + [x] == [x];
    } else {
      assert (lines + [x])[1..] == lines[1..] + [x];
      JoinAppend(lines[1..], x);
    }
  }

  /** The loop of `writeToFile`, producing what it writes. */
  method WriteContent(lines: seq<string>) returns (text: string)
    ensures text == Join(lines)
    ensures (forall k :: 0 <= k < |lines| ==> HasNoLineBreak(lines[k])) ==> ReadLines(text) == lines
  {
    text := "";
    var i := 0;
    while i < |lines|
      invariant 0 <= i <= |lines|
      invariant text == Join(lines[..i])
    {
      assert lines[..i + 1] == lines[..i] + [lines[i]];
      JoinAppend(lines[..i], lines[i]);
      text := text + lines[i] + "\n";
      i := i + 1;
    }
    assert lines[..i] == lines;
    if forall k :: 0 <= k < |lines| ==> HasNoLineBreak(lines[k]) {
      ReadJoin(lines);
    }
  }

  /** Where the first line of `text` ends: its first line break, or the end. */
  function LineEnd(text: string): (k: nat)
    ensures k <= |text|
    ensures HasNoLineBreak(text[..k])
    ensures k < |text| ==> IsLineBreak(text[k])
  {
    if text == [] || IsLineBreak(text[0]) then 0 else 1 + LineEnd(text[1..])
  }

  /** The lines `readLine` returns one after another until it returns null. */
  function ReadLines(text: string): (lines: seq<string>)
    ensures forall k :: 0 <= k < |lines| ==> HasNoLineBreak(lines[k])
    decreases |text|
  {
    if text == [] then []
    else
      var k := LineEnd(text);
      if k == |text| then [text]
      else
        var next := if text[k] == '\r' && k + 1 < |text| && text[k + 1] == '\n' then k + 2 else k + 1;
        [text[..k]] + ReadLines(text[next..])
  }

  /** The first line break of a line followed by '\n' is that '\n'. */
  lemma {:induction false} LineEndOfLine(x: string, rest: string)
    requires HasNoLineBreak(x)
    ensures LineEnd(x + "\n" + rest) == |x|
  {
    if x != [] {
      assert (x + "\n" + rest)[1..] == x[1..] + "\n" + rest;
      LineEndOfLine(x[1..], rest);
    }
  }

  /** Reading back the written text gives the lines, when none holds a line break. */
  lemma {:induction false} ReadJoin(lines: seq<string>)
    requires forall k :: 0 <= k < |lines| ==> HasNoLineBreak(lines[k])
    ensures ReadLines(Join(lines)) == lines
  {
    if lines != [] {
      var x, text := lines[0], Join(lines);
      LineEndOfLine(x, Join(lines[1..]));
      assert text[..|x|] == x;
      assert text[|x|] == '\n';
      assert text[|x| + 1..] == Join(lines[1..]);
      ReadJoin(lines[1..]);
    }
  }

  /** Lines that were read, written and read again come back unchanged. */
  lemma ReadWriteRead(text: string)
    ensures ReadLines(Join(ReadLines(text))) == ReadLines(text)
  {
    ReadJoin(ReadLines(text));
  }
}
