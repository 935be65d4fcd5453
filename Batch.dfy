/** The read loop of the program: every input line goes to the valid list
    or to the invalid list, in the order the lines come in. */
module Batch {
  import opened Validator

  /** The lines of `lines` whose validity is `valid`, in their input order. */
  function Select(lines: seq<string>, valid: bool): (r: seq<string>)
    ensures |r| <= |lines|
    ensures forall k :: 0 <= k < |r| ==> r[k] in lines && IsValidShaba(r[k]) == valid
  {
    if lines == [] then []
    else (if IsValidShaba(lines[0]) == valid then [lines[0]] else []) + Select(lines[1..], valid)
  }

  /** Selecting from a concatenation selects from each part, keeping order. */
  lemma {:induction false} SelectAppend(a: seq<string>, b: seq<string>, valid: bool)
    ensures Select(a + b, valid) == Select(a, valid) + Select(b, valid)
  {
    if a == [] {
      assert a + b == b;
    } else {
      assert (a + b)[1..] == a[1..] + b;
      SelectAppend(a[1..], b, valid);
    }
  }

  /** The two outputs together are exactly as long as the input. */
  lemma {:induction false} PartitionSizes(lines: seq<string>)
    ensures |Select(lines, true)| + |Select(lines, false)| == |lines|
  {
    if lines != [] {
      PartitionSizes(lines[1..]);
    }
  }

  /** The two outputs together hold every input line as often as the input does. */
  lemma {:induction false} PartitionMultiset(lines: seq<string>)
    ensures multiset(Select(lines, true)) + multiset(Select(lines, false)) == multiset(lines)
  {
    if lines != [] {
      var x, rest := lines[0], lines[1..];
      PartitionMultiset(rest);
      assert lines == [x] + rest;
      var head := if IsValidShaba(x) then [x] else [];
      var other := if IsValidShaba(x) then [] else [x];
      assert Select(lines, true) == head + Select(rest, true);
      assert Select(lines, false) == other + Select(rest, false);
      assert multiset(head) + multiset(other) == multiset{x};
    }
  }

  /** A line of the input lands in the output its validity names, and never in the other. */
  lemma {:induction false} EachLineInExactlyOne(lines: seq<string>, x: string)
    requires x in lines
    ensures x in Select(lines, IsValidShaba(x))
    ensures x !in Select(lines, !IsValidShaba(x))
  {
    if lines[0] != x {
      EachLineInExactlyOne(lines[1..], x);
    }
  }

  /** The loop of `main`: appends each line to `valid` or to `invalid`. */
  method Classify(lines: seq<string>) returns (valid: seq<string>, invalid: seq<string>)
    ensures valid == Select(lines, true)
    ensures invalid == Select(lines, false)
    ensures |valid| + |invalid| == |lines|
  {
    valid, invalid := [], [];
    var i := 0;
    while i < |lines|
      invariant 0 <= i <= |lines|
      invariant valid == Select(lines[..i], true)
      invariant invalid == Select(lines[..i], false)
    {
      var line := lines[i];
      assert lines[..i + 1] == lines[..i] + [line];
      SelectAppend(lines[..i], [line], true);
      SelectAppend(lines[..i], [line], false);
      if IsValidShaba(line) {
        valid := valid + [line];
      } else {
        invalid := invalid + [line];
      }
      i := i + 1;
    }
    assert lines[..i] == lines;
    PartitionSizes(lines);
  }
}
