/** How both drivers read the service's free-text reply: line by line, keeping
    `(index, name)` pairs from the lines that look like `"<k>. <name>"` for a `k` within
    the batch, and silently skipping every other line. */
module ReplyParser {
  import opened Text
  import opened Listing
  import opened Collect

  /** One accepted reply line: the 0-based batch index `int(parts[0]) - 1` and the name. */
  datatype Pick = Pick(index: nat, name: string)

  /** The characters `strip('[]')` removes. */
  const Brackets: set<char> := {'[', ']'}

  /** The name part of an accepted line: trimmed of whitespace, then of every leading and
      trailing bracket. */
  function CleanName(rest: string): string
  {
    StripChars(Strip(rest), Brackets)
  }

  /** The line test and cut of the parsing loop: `line.strip() and line[0].isdigit() and
      '. ' in line`, then `parts = line.split('. ', 1)` and `parts[0].isdigit()`. It yields the
      digits before the first `". "` and the text after it. Since the line contains `". "`,
      the split always has two parts. */
  function LineEntry(line: string): (r: Option<(string, string)>)
    ensures r.Some? ==> IsDigits(r.value.0) && line == r.value.0 + ". " + r.value.1
  {
    if Strip(line) == "" || !IsDigit(line[0]) || !HasDotSpace(line) then None
    else
      var cut := FindDotSpace(line);
      if !IsDigits(line[..cut]) then None
      else
        DotSpaceCut(line, cut);
        Some((line[..cut], line[cut + 2..]))
  }

  /** What the loop keeps of an entry: the index `int(parts[0]) - 1` when it lies inside the
      batch, and the name `parts[1].strip().strip('[]')` when that is not empty. */
  function AcceptEntry(head: string, rest: string, batchLen: nat): (r: Option<Pick>)
    requires IsDigits(head)
    ensures r.Some? ==> r.value.index < batchLen && r.value.index + 1 == DigitsValue(head)
    ensures r.Some? ==> r.value.name == CleanName(rest) && r.value.name != ""
  {
    var idx := DigitsValue(head) - 1;
    if !(0 <= idx < batchLen) then None
    else
      var name := CleanName(rest);
      if name == "" then None else Some(Pick(idx, name))
  }

  /** An entry is dropped exactly when its number is 0 or past the batch, or its name is
      empty once cleaned. */
  lemma AcceptEntryDrops(head: string, rest: string, batchLen: nat)
    requires IsDigits(head)
    ensures AcceptEntry(head, rest, batchLen).None?
            <==> DigitsValue(head) == 0 || DigitsValue(head) > batchLen || CleanName(rest) == ""
  {
  }

  /** The body of the parsing loop for one line. A kept pair has its index inside the batch
      and a non-empty name without surrounding brackets, both read off the line's entry. */
  function ParseLine(line: string, batchLen: nat): (r: Option<Pick>)
    ensures r.Some? ==> r.value.index < batchLen && r.value.name != ""
    ensures r.Some? ==> var name := r.value.name;
                        name[0] !in Brackets && name[|name| - 1] !in Brackets
    ensures r.Some? ==> LineEntry(line).Some?
                        && DigitsValue(LineEntry(line).value.0) == r.value.index + 1
                        && r.value.name == CleanName(LineEntry(line).value.1)
  {
    match LineEntry(line)
    case None => None
    case Some((head, rest)) => AcceptEntry(head, rest, batchLen)
  }

  function LineParser(batchLen: nat): string -> Option<Pick>
  {
    line => ParseLine(line, batchLen)
  }

  /** The pairs from a sequence of lines, in line order. */
  function ParseLines(lines: seq<string>, batchLen: nat): seq<Pick>
  {
    Keep(lines, LineParser(batchLen))
  }

  /** Every pair of a sequence of lines names an index inside the batch and a non-empty name. */
  lemma {:induction false} ParseLinesValid(lines: seq<string>, batchLen: nat)
    ensures forall p :: p in ParseLines(lines, batchLen) ==> p.index < batchLen && p.name != ""
  {
    if |lines| > 0 {
      ParseLinesValid(lines[..|lines| - 1], batchLen);
    }
  }

  /** The pairs from a whole reply, `content.split('\n')`: each names an index inside the
      batch and a non-empty name. */
  function ParseReply(content: string, batchLen: nat): (r: seq<Pick>)
    ensures forall p :: p in r ==> p.index < batchLen && p.name != ""
  {
    ParseLinesValid(Split(content, '\n'), batchLen);
    ParseLines(Split(content, '\n'), batchLen)
  }

  /** Parsing is line by line: the pairs of two line sequences are the pairs of each. */
  lemma ParseLinesAppend(a: seq<string>, b: seq<string>, batchLen: nat)
    ensures ParseLines(a + b, batchLen) == ParseLines(a, batchLen) + ParseLines(b, batchLen)
  {
    KeepAppend(a, b, LineParser(batchLen));
  }

  /** A reply made of two texts on separate lines yields the pairs of the first, then those
      of the second: interleaved lines that are not entries change nothing, and the pairs
      keep reply order. */
  lemma ParseReplyAround(a: string, b: string, batchLen: nat)
    ensures ParseReply(a + "\n" + b, batchLen) == ParseReply(a, batchLen) + ParseReply(b, batchLen)
  {
    SplitAround(a, b, '\n');
    ParseLinesAppend(Split(a, '\n'), Split(b, '\n'), batchLen);
  }

  /** A reply that is a single line yields what that line yields. */
  lemma ParseReplyOneLine(line: string, batchLen: nat)
    requires '\n' !in line
    ensures ParseReply(line, batchLen) == Listed(ParseLine(line, batchLen))
  {
    SplitWithout(line, '\n');
    KeepLast([line], LineParser(batchLen));
    assert [line][..0] == [];
  }

  /** Converse of LineEntry's contract: a line made of digits, `". "` and any rest is an
      entry with exactly those digits and that rest (the rest may contain further `". "`). */
  lemma LineEntryOf(digits: string, rest: string)
    requires IsDigits(digits)
    ensures LineEntry(digits + ". " + rest) == Some((digits, rest))
  {
    var line := digits + ". " + rest;
    FindDotSpaceAfterDigits(digits, rest, 0);
    assert line[..|digits|] == digits;
    assert line[|digits| + 2..] == rest;
    assert line[0] == digits[0];
    var lo, hi := StripCharsSlice(line, Whitespace);
    assert line[0] !in Whitespace;
  }

  /** A line that starts with digits followed by `". "` is parsed exactly as its digits and
      rest are accepted: whether it yields a pair, and which, depends on nothing else. */
  lemma ParseWellFormedLine(digits: string, rest: string, batchLen: nat)
    requires IsDigits(digits)
    ensures ParseLine(digits + ". " + rest, batchLen) == AcceptEntry(digits, rest, batchLen)
  {
    LineEntryOf(digits, rest);
  }

  /** A name as the listing would write it: non-empty, without surrounding whitespace or
      brackets. */
  predicate CleanListed(name: string) {
    |name| > 0 && name[0] !in Whitespace + Brackets && name[|name| - 1] !in Whitespace + Brackets
  }

  /** A clean name survives the name clean-up unchanged. */
  lemma CleanNameKeeps(name: string)
    requires CleanListed(name)
    ensures CleanName(name) == name
  {
    StripCharsKeeps(name, Whitespace);
    StripCharsKeeps(name, Brackets);
  }

  /** Listing line `k` of a batch of `n >= k` files parses back to index `k - 1` and the name. */
  lemma ParseNumberedLine(k: nat, name: string, batchLen: nat)
    requires 1 <= k <= batchLen && CleanListed(name)
    ensures ParseLine(NumberedLine(k, name), batchLen) == Some(Pick(k - 1, name))
  {
    var digits := NatToString(k);
    NatToStringRoundTrip(k);
    CleanNameKeeps(name);
    assert AcceptEntry(digits, name, batchLen) == Some(Pick(k - 1, name));
    ParseWellFormedLine(digits, name, batchLen);
  }

  /** Line `m` of a listing, fed to the loop body. */
  lemma ListingLineParsed(names: seq<string>, m: nat, batchLen: nat)
    requires m < |names| <= batchLen && CleanListed(names[m])
    ensures LineParser(batchLen)(NumberedLines(names)[m]) == Some(Pick(m, names[m]))
  {
    var line := NumberedLines(names)[m];
    assert line == NumberedLine(m + 1, names[m]);
    ParseNumberedLine(m + 1, names[m], batchLen);
    assert LineParser(batchLen)(line) == ParseLine(line, batchLen);
  }

  /** The pairs of a whole listing. */
  lemma ParseNumberedLines(names: seq<string>, batchLen: nat)
    requires |names| <= batchLen
    requires forall j :: 0 <= j < |names| ==> CleanListed(names[j])
    ensures ParseLines(NumberedLines(names), batchLen) == seq(|names|, j requires 0 <= j < |names| => Pick(j, names[j]))
  {
    var lines := NumberedLines(names);
    var picks := seq(|names|, j requires 0 <= j < |names| => Pick(j, names[j]));
    forall j | 0 <= j < |lines| ensures LineParser(batchLen)(lines[j]) == Some(picks[j]) {
      ListingLineParsed(names, j, batchLen);
    }
    KeepAll(lines, LineParser(batchLen), picks);
  }

  /** Round trip: a reply that repeats the prompt's listing word for word renames every file
      of the batch to its own name, in order, when no name contains a line break or starts
      or ends with whitespace or a bracket. */
  lemma ListingRoundTrip(batch: seq<string>)
    requires forall j :: 0 <= j < |batch| ==> CleanListed(batch[j]) && '\n' !in batch[j]
    ensures ParseReply(FileListText(batch), |batch|) == seq(|batch|, j requires 0 <= j < |batch| => Pick(j, batch[j]))
  {
    if |batch| == 0 {
      assert FileListText(batch) == "";
      ParseReplyOneLine("", 0);
    } else {
      FileListLines(batch);
      ParseNumberedLines(batch, |batch|);
    }
  }

  /** The parsing loop: `for line in lines: ... new_filenames.append((idx, new_name))`. */
  method CollectNewNames(content: string, batchLen: nat) returns (picks: seq<Pick>)
    ensures picks == ParseReply(content, batchLen)
    ensures forall p :: p in picks ==> p.index < batchLen && p.name != ""
  {
    var lines := Split(content, '\n');
    picks := [];
    var k := 0;
    while k < |lines|
      invariant k <= |lines|
      invariant picks == ParseLines(lines[..k], batchLen)
    {
      var parsed := ParseLine(lines[k], batchLen);
      KeepStep(lines, k, LineParser(batchLen));
      if parsed.Some? {
        picks := picks + [parsed.value];
      }
      k := k + 1;
    }
    assert lines[..k] == lines;
    ParseLinesValid(lines, batchLen);
  }
}
