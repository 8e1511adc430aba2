/** Splitting a unified diff into its hunks, with the line numbers of each hunk's first change. */
module HunkParser {
  import opened Wrappers
  import Text

  // ------------------------------------------------------------------------------------------------
  // The header: "@@ -a,b +c,d @@", either count optional, anything after
  // ------------------------------------------------------------------------------------------------

  datatype Header = Header(oldStart: nat, oldCount: nat, newStart: nat, newCount: nat)

  /** strconv.Atoi's answer to a number out of range. */
  const MAX_INT: nat := 0x7FFF_FFFF_FFFF_FFFF

  predicate IsDigit(c: char) {
    '0' <= c <= '9'
  }

  function DigitRun(s: string): (n: nat)
    ensures n <= |s|
  {
    if s == "" || !IsDigit(s[0]) then 0 else 1 + DigitRun(s[1..])
  }

  /** The value of a digit string. */
  function ValueOf(digits: string): nat {
    if digits == "" then 0
    else
      var d := digits[|digits| - 1];
      10 * ValueOf(digits[..|digits| - 1]) + if IsDigit(d) then (d - '0') as nat else 0
  }

  function Atoi(digits: string): nat {
    if ValueOf(digits) > MAX_INT then MAX_INT else ValueOf(digits)
  }

  datatype Range = Range(start: nat, count: nat, rest: string)

  /** A start and an optional count; a comma with no digit after it is not a count. */
  function TakeRange(s: string): (r: Option<Range>)
  {
    var n := DigitRun(s);
    if n == 0 then None
    else if n < |s| && s[n] == ',' && DigitRun(s[n + 1..]) > 0 then
      var m := DigitRun(s[n + 1..]);
      Some(Range(Atoi(s[..n]), Atoi(s[n + 1..][..m]), s[n + 1..][m..]))
    else Some(Range(Atoi(s[..n]), 1, s[n..]))
  }

  function ParseHeader(line: string): Option<Header> {
    if !Text.HasPrefix(line, "@@ -") then None
    else
      var left := TakeRange(line[4..]);
      if left.None? || !Text.HasPrefix(left.value.rest, " +") then None
      else
        var right := TakeRange(left.value.rest[2..]);
        if right.None? || !Text.HasPrefix(right.value.rest, " @@") then None
        else Some(Header(left.value.start, left.value.count, right.value.start, right.value.count))
  }

  function Decimal(n: nat): (s: string)
    ensures s != "" && forall i | 0 <= i < |s| :: IsDigit(s[i])
  {
    if n < 10 then [('0' as int + n) as char] else Decimal(n / 10) + [('0' as int + n % 10) as char]
  }

  lemma {:induction false} ValueOfDecimal(n: nat)
    ensures ValueOf(Decimal(n)) == n
  {
    if n >= 10 {
      ValueOfDecimal(n / 10);
      var s := Decimal(n);
      assert s[..|s| - 1] == Decimal(n / 10);
    } else {
      assert Decimal(n)[..0] == "";
    }
  }

  lemma {:induction false} DigitRunStops(digits: string, rest: string)
    requires forall i | 0 <= i < |digits| :: IsDigit(digits[i])
    requires rest == "" || !IsDigit(rest[0])
    ensures DigitRun(digits + rest) == |digits|
    decreases |digits|
  {
    if digits == "" {
      assert digits + rest == rest;
    } else {
      assert (digits + rest)[1..] == digits[1..] + rest;
      DigitRunStops(digits[1..], rest);
    }
  }

  predicate Digits(s: string) {
    s != "" && forall i | 0 <= i < |s| :: IsDigit(s[i])
  }

  /** A range of digit strings is read to its end, count or no count, up to a character that continues neither. */
  lemma TakeDigits(a: string, b: string, rest: string)
    requires Digits(a) && Digits(b) && rest != "" && !IsDigit(rest[0]) && rest[0] != ','
    ensures TakeRange(a + ("," + (b + rest))) == Some(Range(Atoi(a), Atoi(b), rest))
    ensures TakeRange(a + rest) == Some(Range(Atoi(a), 1, rest))
  {
    DigitRunStops(a, rest);
    DigitRunStops(b, rest);
    var tail := "," + (b + rest);
    DigitRunStops(a, tail);
    var s := a + tail;
    assert s[..|a|] == a && s[|a| + 1..] == b + rest;
    assert (b + rest)[..|b|] == b && (b + rest)[|b|..] == rest;
    assert (a + rest)[..|a|] == a && (a + rest)[|a|..] == rest;
  }

  /** A written range is read back, count or no count. */
  lemma TakeRangeReads(start: nat, count: nat, rest: string)
    requires start <= MAX_INT && count <= MAX_INT && rest != "" && !IsDigit(rest[0]) && rest[0] != ','
    ensures TakeRange(Decimal(start) + ("," + (Decimal(count) + rest))) == Some(Range(start, count, rest))
    ensures TakeRange(Decimal(start) + rest) == Some(Range(start, 1, rest))
  {
    ValueOfDecimal(start);
    ValueOfDecimal(count);
    TakeDigits(Decimal(start), Decimal(count), rest);
  }

  /** git's own spelling: a count of one may be left out. */
  function RangeText(start: nat, count: nat, short: bool): string {
    if short && count == 1 then Decimal(start) else Decimal(start) + ("," + Decimal(count))
  }

  lemma Regroup(a: string, b: string, rest: string)
    ensures a + ("," + b) + rest == a + ("," + (b + rest))
  {
  }

  lemma RangeTextReads(start: nat, count: nat, short: bool, rest: string)
    requires start <= MAX_INT && count <= MAX_INT && rest != "" && !IsDigit(rest[0]) && rest[0] != ','
    ensures TakeRange(RangeText(start, count, short) + rest) == Some(Range(start, count, rest))
  {
    TakeRangeReads(start, count, rest);
    var a, b := Decimal(start), Decimal(count);
    if !(short && count == 1) {
      Regroup(a, b, rest);
    }
  }

  /** Every header git writes is read back exactly, whatever follows it on the line. */
  lemma HeaderReadsBack(h: Header, shortOld: bool, shortNew: bool, section: string)
    requires h.oldStart <= MAX_INT && h.oldCount <= MAX_INT && h.newStart <= MAX_INT && h.newCount <= MAX_INT
    ensures ParseHeader("@@ -" + (RangeText(h.oldStart, h.oldCount, shortOld)
                                  + (" +" + (RangeText(h.newStart, h.newCount, shortNew) + (" @@" + section))))) == Some(h)
  {
    var end := " @@" + section;
    var mid := " +" + (RangeText(h.newStart, h.newCount, shortNew) + end);
    var line := "@@ -" + (RangeText(h.oldStart, h.oldCount, shortOld) + mid);
    RangeTextReads(h.oldStart, h.oldCount, shortOld, mid);
    RangeTextReads(h.newStart, h.newCount, shortNew, end);
    assert line[4..] == RangeText(h.oldStart, h.oldCount, shortOld) + mid;
    assert mid[2..] == RangeText(h.newStart, h.newCount, shortNew) + end;
  }

  /** The parts of a header line: digit strings, of which the counts may be missing, and whatever follows. */
  datatype Parts = Parts(oldStart: string, oldCount: Option<string>, newStart: string, newCount: Option<string>, rest: string)

  predicate WellFormed(p: Parts) {
    && Digits(p.oldStart) && (p.oldCount.Some? ==> Digits(p.oldCount.value))
    && Digits(p.newStart) && (p.newCount.Some? ==> Digits(p.newCount.value))
  }

  function RangeOf(start: string, count: Option<string>, rest: string): string {
    if count.None? then start + rest else start + ("," + (count.value + rest))
  }

  function LineOf(p: Parts): string {
    "@@ -" + RangeOf(p.oldStart, p.oldCount, " +" + RangeOf(p.newStart, p.newCount, " @@" + p.rest))
  }

  function CountOf(count: Option<string>): nat {
    if count.None? then 1 else Atoi(count.value)
  }

  lemma TakesRangeOf(start: string, count: Option<string>, rest: string)
    requires Digits(start) && (count.Some? ==> Digits(count.value)) && rest != "" && !IsDigit(rest[0]) && rest[0] != ','
    ensures TakeRange(RangeOf(start, count, rest)) == Some(Range(Atoi(start), CountOf(count), rest))
  {
    TakeDigits(start, if count.None? then start else count.value, rest);
  }

  lemma {:induction false} DigitRunDigits(s: string)
    ensures forall i | 0 <= i < DigitRun(s) :: IsDigit(s[i])
  {
    if s != "" && IsDigit(s[0]) {
      DigitRunDigits(s[1..]);
      assert forall i | 1 <= i < DigitRun(s) :: s[i] == s[1..][i - 1];
    }
  }

  /** What a range takes is a range, and what it leaves follows it. */
  lemma TookRange(s: string) returns (start: string, count: Option<string>)
    requires TakeRange(s).Some?
    ensures Digits(start) && (count.Some? ==> Digits(count.value))
    ensures s == RangeOf(start, count, TakeRange(s).value.rest)
    ensures TakeRange(s).value.start == Atoi(start) && TakeRange(s).value.count == CountOf(count)
  {
    var n := DigitRun(s);
    CutRun(s);
    start, count := s[..n], None;
    if n < |s| && s[n] == ',' && DigitRun(s[n + 1..]) > 0 {
      var m := DigitRun(s[n + 1..]);
      CutRun(s[n + 1..]);
      count := Some(s[n + 1..][..m]);
      CommaFollows(s, n);
    }
  }

  lemma CutRun(s: string)
    ensures s == s[..DigitRun(s)] + s[DigitRun(s)..] && (DigitRun(s) > 0 ==> Digits(s[..DigitRun(s)]))
  {
    DigitRunDigits(s);
  }

  lemma CommaFollows(s: string, n: nat)
    requires n < |s| && s[n] == ','
    ensures s == s[..n] + ("," + s[n + 1..])
  {
  }

  /**
   * A line is a header exactly when it has that layout, at its very start and with anything after it, and the header
   * is the numbers written there, a missing count being one and a number out of range the largest.
   */
  lemma HeaderExactly(line: string)
    ensures ParseHeader(line).Some? <==> exists p :: WellFormed(p) && line == LineOf(p)
    ensures forall p | WellFormed(p) && line == LineOf(p) ::
      ParseHeader(line) == Some(Header(Atoi(p.oldStart), CountOf(p.oldCount), Atoi(p.newStart), CountOf(p.newCount)))
  {
    forall p | WellFormed(p) && line == LineOf(p)
      ensures ParseHeader(line) == Some(Header(Atoi(p.oldStart), CountOf(p.oldCount), Atoi(p.newStart), CountOf(p.newCount)))
    {
      LineParses(p);
    }
    if ParseHeader(line).Some? {
      var p := HeaderHasLayout(line);
    }
  }

  lemma ParsesInTwo(a: string, b: string, left: Range, right: Range)
    requires TakeRange(a) == Some(left) && left.rest == " +" + b
    requires TakeRange(b) == Some(right) && Text.HasPrefix(right.rest, " @@")
    ensures ParseHeader("@@ -" + a) == Some(Header(left.start, left.count, right.start, right.count))
  {
    assert ("@@ -" + a)[4..] == a;
    assert left.rest[2..] == b;
  }

  lemma LineParses(p: Parts)
    requires WellFormed(p)
    ensures ParseHeader(LineOf(p)) ==
            Some(Header(Atoi(p.oldStart), CountOf(p.oldCount), Atoi(p.newStart), CountOf(p.newCount)))
  {
    var end := " @@" + p.rest;
    var b := RangeOf(p.newStart, p.newCount, end);
    TakesRangeOf(p.oldStart, p.oldCount, " +" + b);
    TakesRangeOf(p.newStart, p.newCount, end);
    ParsesInTwo(RangeOf(p.oldStart, p.oldCount, " +" + b), b,
                Range(Atoi(p.oldStart), CountOf(p.oldCount), " +" + b), Range(Atoi(p.newStart), CountOf(p.newCount), end));
  }

  lemma ParsedInTwo(line: string) returns (a: string, b: string, c: string)
    requires ParseHeader(line).Some?
    ensures line == "@@ -" + a && TakeRange(a).Some? && TakeRange(a).value.rest == " +" + b
    ensures TakeRange(b).Some? && TakeRange(b).value.rest == " @@" + c
  {
    a := line[4..];
    PrefixCut(line, "@@ -");
    b := TakeRange(a).value.rest[2..];
    PrefixCut(TakeRange(a).value.rest, " +");
    c := TakeRange(b).value.rest[3..];
    PrefixCut(TakeRange(b).value.rest, " @@");
  }

  lemma PrefixCut(s: string, prefix: string)
    ensures Text.HasPrefix(s, prefix) ==> s == prefix + s[|prefix|..]
  {
  }

  lemma HeaderHasLayout(line: string) returns (p: Parts)
    requires ParseHeader(line).Some?
    ensures WellFormed(p) && line == LineOf(p)
  {
    var a, b, c := ParsedInTwo(line);
    var oldStart, oldCount := TookRange(a);
    var newStart, newCount := TookRange(b);
    p := Parts(oldStart, oldCount, newStart, newCount, c);
  }

  // ------------------------------------------------------------------------------------------------
  // The first change of a hunk body
  // ------------------------------------------------------------------------------------------------

  predicate IsContext(line: string) {
    line != "" && line[0] == ' '
  }

  predicate IsChange(line: string) {
    line != "" && (line[0] == '-' || line[0] == '+')
  }

  /** The index of the first removed or added line, or the length of the body. */
  function FirstChange(body: seq<string>): (n: nat)
    ensures n <= |body|
    ensures forall j | 0 <= j < n :: !IsChange(body[j])
    ensures n < |body| ==> IsChange(body[n])
  {
    if body == [] || IsChange(body[0]) then 0 else 1 + FirstChange(body[1..])
  }

  function Contexts(body: seq<string>): nat {
    if body == [] then 0 else Contexts(body[..|body| - 1]) + if IsContext(body[|body| - 1]) then 1 else 0
  }

  /** How far the first change lies below the header's start: the context lines above it, or 0 without a change. */
  function ChangeOffset(body: seq<string>): nat {
    if FirstChange(body) < |body| then Contexts(body[..FirstChange(body)]) else 0
  }

  lemma {:induction false} FirstChangeAfter(pre: seq<string>, rest: seq<string>)
    requires forall j | 0 <= j < |pre| :: !IsChange(pre[j])
    ensures FirstChange(pre + rest) == |pre| + FirstChange(rest)
  {
    if pre == [] {
      assert pre + rest == rest;
    } else {
      FirstChangeAfter(pre[1..], rest);
      assert (pre + rest)[1..] == pre[1..] + rest;
    }
  }

  lemma {:induction false} ContextsConcat(a: seq<string>, b: seq<string>)
    ensures Contexts(a + b) == Contexts(a) + Contexts(b)
    decreases |b|
  {
    if b == [] {
      assert a + b == a;
    } else {
      ContextsConcat(a, b[..|b| - 1]);
      assert (a + b)[..|a + b| - 1] == a + b[..|b| - 1];
    }
  }

  lemma {:induction false} AllContexts(pre: seq<string>)
    requires forall j | 0 <= j < |pre| :: pre[j] != "" && pre[j][0] == ' '
    ensures Contexts(pre) == |pre|
    decreases |pre|
  {
    if pre != [] {
      AllContexts(pre[..|pre| - 1]);
    }
  }

  /** With only context lines above the first removed or added line, the offset counts them; without a change it is 0. */
  lemma OffsetCountsTheContext(pre: seq<string>, change: string, post: seq<string>)
    requires forall j | 0 <= j < |pre| :: pre[j] != "" && pre[j][0] == ' '
    requires change != "" && change[0] in {'-', '+'}
    ensures ChangeOffset(pre + [change] + post) == |pre|
    ensures ChangeOffset(pre) == 0
  {
    FirstChangeAfter(pre, [change] + post);
    assert pre + [change] + post == pre + ([change] + post);
    assert (pre + [change] + post)[..|pre|] == pre;
    AllContexts(pre);
    FirstChangeAfter(pre, []);
    assert pre + [] == pre;
  }

  /** Any other line, empty or the note on a missing newline, makes no difference wherever it stands. */
  lemma OtherLinesDoNotCount(pre: seq<string>, other: string, post: seq<string>)
    requires other == "" || other[0] !in {' ', '-', '+'}
    requires forall j | 0 <= j < |pre| :: !IsChange(pre[j])
    ensures ChangeOffset(pre + [other] + post) == ChangeOffset(pre + post)
  {
    var n := FirstChange(post);
    assert pre + [other] + post == (pre + [other]) + post;
    FirstChangeAfter(pre + [other], post);
    FirstChangeAfter(pre, post);
    assert ((pre + [other]) + post)[..|pre| + 1 + n] == (pre + [other]) + post[..n];
    assert (pre + post)[..|pre| + n] == pre + post[..n];
    ContextsConcat(pre + [other], post[..n]);
    ContextsConcat(pre, post[..n]);
    ContextsConcat(pre, [other]);
    assert Contexts([other]) == 0 by {
      assert [other][..0] == [];
    }
  }

  /** The body walk, which tracks both files' line numbers and stops recording at the first change. */
  method FindChange(body: seq<string>, oldStart: nat, newStart: nat) returns (oldChange: nat, newChange: nat)
    ensures oldChange == oldStart + ChangeOffset(body) && newChange == newStart + ChangeOffset(body)
  {
    var oldLine, newLine := oldStart, newStart;
    oldChange, newChange := oldStart, newStart;
    var found := false;
    for k := 0 to |body|
      invariant !found ==> k <= FirstChange(body) && oldChange == oldStart && newChange == newStart
      invariant !found ==> oldLine == oldStart + Contexts(body[..k]) && newLine == newStart + Contexts(body[..k])
      invariant found ==>
        FirstChange(body) < k && oldChange == oldStart + ChangeOffset(body) && newChange == newStart + ChangeOffset(body)
    {
      var line := body[k];
      assert body[..k + 1][..k] == body[..k];
      if line != "" {
        if line[0] == ' ' {
          oldLine, newLine := oldLine + 1, newLine + 1;
        } else if line[0] == '-' {
          if !found {
            oldChange, newChange, found := oldLine, newLine, true;
          }
          oldLine := oldLine + 1;
        } else if line[0] == '+' {
          if !found {
            oldChange, newChange, found := oldLine, newLine, true;
          }
          newLine := newLine + 1;
        }
      }
    }
  }

  // ------------------------------------------------------------------------------------------------
  // The hunks of a diff
  // ------------------------------------------------------------------------------------------------

  datatype Hunk = Hunk(header: Header, oldChangeStart: nat, newChangeStart: nat, staged: bool, diff: string)

  predicate Marked(line: string) {
    Text.HasPrefix(line, "@@")
  }

  predicate StartsHunk(line: string) {
    Marked(line) && ParseHeader(line).Some?
  }

  /** The first line from `i` on that is marked, or the end. */
  function BlockEnd(lines: seq<string>, i: nat): (end: nat)
    requires i <= |lines|
    ensures i <= end <= |lines|
    ensures forall j | i <= j < end :: !Marked(lines[j])
    ensures end < |lines| ==> Marked(lines[end])
    decreases |lines| - i
  {
    if i == |lines| || Marked(lines[i]) then i else BlockEnd(lines, i + 1)
  }

  function HunkAt(lines: seq<string>, i: nat, staged: bool): Hunk
    requires i < |lines| && StartsHunk(lines[i])
  {
    var h := ParseHeader(lines[i]).value;
    var end := BlockEnd(lines, i + 1);
    var offset := ChangeOffset(lines[i + 1..end]);
    Hunk(h, h.oldStart + offset, h.newStart + offset, staged, Text.Join(lines[i..end], '\n'))
  }

  function HunksFrom(lines: seq<string>, i: nat, staged: bool): seq<Hunk>
    requires i <= |lines|
    decreases |lines| - i
  {
    if i == |lines| then []
    else if !StartsHunk(lines[i]) then HunksFrom(lines, i + 1, staged)
    else [HunkAt(lines, i, staged)] + HunksFrom(lines, BlockEnd(lines, i + 1), staged)
  }

  /** One hunk: its block runs to the next marked line or the end. */
  method ReadHunk(lines: seq<string>, blockStart: nat, header: Header, staged: bool) returns (hunk: Hunk, i: nat)
    requires blockStart < |lines| && Marked(lines[blockStart]) && ParseHeader(lines[blockStart]) == Some(header)
    ensures i == BlockEnd(lines, blockStart + 1) && hunk == HunkAt(lines, blockStart, staged)
  {
    i := blockStart + 1;
    while i < |lines| && !Marked(lines[i])
      invariant blockStart < i <= |lines|
      invariant BlockEnd(lines, i) == BlockEnd(lines, blockStart + 1)
    {
      i := i + 1;
    }
    var block := Text.Join(lines[blockStart..i], '\n');
    var oldChange, newChange := FindChange(lines[blockStart + 1..i], header.oldStart, header.newStart);
    hunk := Hunk(header, oldChange, newChange, staged, block);
  }

  method ParseHunkInfos(diff: string, staged: bool) returns (hunks: seq<Hunk>)
    ensures hunks == if diff == "" then [] else HunksFrom(Text.Split(diff, '\n'), 0, staged)
  {
    if diff == "" {
      return [];
    }
    var lines := Text.Split(diff, '\n');
    hunks := [];
    var i := 0;
    while i < |lines|
      invariant i <= |lines|
      invariant hunks + HunksFrom(lines, i, staged) == HunksFrom(lines, 0, staged)
    {
      if !Marked(lines[i]) {
        i := i + 1;
        continue;
      }
      var m := ParseHeader(lines[i]);
      if m.None? {
        i := i + 1;
        continue;
      }
      ghost var before, at := hunks, i;
      var hunk;
      hunk, i := ReadHunk(lines, i, m.value, staged);
      hunks := hunks + [hunk];
      OneMoreHunk(lines, at, staged, before);
    }
  }

  lemma OneMoreHunk(lines: seq<string>, i: nat, staged: bool, before: seq<Hunk>)
    requires i < |lines| && StartsHunk(lines[i])
    ensures before + HunksFrom(lines, i, staged) ==
            before + [HunkAt(lines, i, staged)] + HunksFrom(lines, BlockEnd(lines, i + 1), staged)
  {
  }

  // ------------------------------------------------------------------------------------------------
  // Tiling
  // ------------------------------------------------------------------------------------------------

  function Diffs(hunks: seq<Hunk>): seq<string> {
    if hunks == [] then [] else [hunks[0].diff] + Diffs(hunks[1..])
  }

  /** Every marked line from `i` on is a header. */
  predicate AllHeaders(lines: seq<string>, i: nat) {
    forall j | i <= j < |lines| && Marked(lines[j]) :: StartsHunk(lines[j])
  }

  /** The first block and the rest, as texts. */
  lemma DiffsSplit(lines: seq<string>, i: nat, staged: bool)
    requires i < |lines| && StartsHunk(lines[i])
    ensures var end := BlockEnd(lines, i + 1);
            Diffs(HunksFrom(lines, i, staged)) ==
            [Text.Join(lines[i..end], '\n')] + Diffs(HunksFrom(lines, end, staged))
  {
    var first, rest := HunkAt(lines, i, staged), HunksFrom(lines, BlockEnd(lines, i + 1), staged);
    assert ([first] + rest)[1..] == rest;
  }

  /** A block followed by what the later blocks make up. */
  lemma BlockThenRest(lines: seq<string>, i: nat, end: nat, diffs: seq<string>)
    requires i < end < |lines| && diffs != [] && Text.Join(diffs, '\n') == Text.Join(lines[end..], '\n')
    ensures Text.Join([Text.Join(lines[i..end], '\n')] + diffs, '\n') == Text.Join(lines[i..], '\n')
  {
    var block := Text.Join(lines[i..end], '\n');
    Text.JoinConcat(lines[i..end], lines[end..], '\n');
    assert lines[i..] == lines[i..end] + lines[end..];
    Text.JoinConcat([block], diffs, '\n');
  }

  /** From a header on, the blocks put together again are the text from there to the end. */
  lemma {:induction false} BlocksTile(lines: seq<string>, i: nat, staged: bool)
    requires i < |lines| && Marked(lines[i]) && AllHeaders(lines, i)
    ensures Diffs(HunksFrom(lines, i, staged)) != []
    ensures Text.Join(Diffs(HunksFrom(lines, i, staged)), '\n') == Text.Join(lines[i..], '\n')
    decreases |lines| - i
  {
    var end := BlockEnd(lines, i + 1);
    DiffsSplit(lines, i, staged);
    if end < |lines| {
      BlocksTile(lines, end, staged);
      BlockThenRest(lines, i, end, Diffs(HunksFrom(lines, end, staged)));
    } else {
      assert lines[i..end] == lines[i..];
    }
  }

  /** The characters a list of lines takes, each with its line end. */
  function Size(parts: seq<string>): nat {
    if parts == [] then 0 else |parts[0]| + 1 + Size(parts[1..])
  }

  lemma {:induction false} JoinSize(parts: seq<string>)
    ensures |Text.Join(parts, '\n')| == if parts == [] then 0 else Size(parts) - 1
  {
    if |parts| > 1 {
      JoinSize(parts[1..]);
    } else if |parts| == 1 {
      assert Size(parts[1..]) == 0;
    }
  }

  lemma {:induction false} SizeConcat(a: seq<string>, b: seq<string>)
    ensures Size(a + b) == Size(a) + Size(b)
  {
    if a == [] {
      assert a + b == b;
    } else {
      SizeConcat(a[1..], b);
      assert (a + b)[1..] == a[1..] + b;
    }
  }

  lemma SizeCons(first: string, rest: seq<string>)
    ensures Size([first] + rest) == |first| + 1 + Size(rest)
  {
    assert ([first] + rest)[1..] == rest;
  }

  lemma BlockHoldsItsLines(lines: seq<string>, i: nat, staged: bool)
    requires i < |lines| && StartsHunk(lines[i])
    ensures var end := BlockEnd(lines, i + 1);
            && Size(Diffs(HunksFrom(lines, i, staged))) == Size(lines[i..end]) + Size(Diffs(HunksFrom(lines, end, staged)))
            && Size(lines[i..]) == Size(lines[i..end]) + Size(lines[end..])
  {
    var end := BlockEnd(lines, i + 1);
    DiffsSplit(lines, i, staged);
    BlockSize(lines, i, end, Diffs(HunksFrom(lines, end, staged)));
  }

  lemma BlockSize(lines: seq<string>, i: nat, end: nat, diffs: seq<string>)
    requires i < end <= |lines|
    ensures Size([Text.Join(lines[i..end], '\n')] + diffs) == Size(lines[i..end]) + Size(diffs)
    ensures Size(lines[i..]) == Size(lines[i..end]) + Size(lines[end..])
  {
    SizeCons(Text.Join(lines[i..end], '\n'), diffs);
    JoinSize(lines[i..end]);
    SizeConcat(lines[i..end], lines[end..]);
    assert lines[i..] == lines[i..end] + lines[end..];
  }

  predicate TilesFrom(lines: seq<string>, i: nat)
    requires i <= |lines|
  {
    i == |lines| || (StartsHunk(lines[i]) && AllHeaders(lines, i))
  }

  /** Whether the blocks tile is decided at the next marked line. */
  lemma TilesFromNext(lines: seq<string>, i: nat)
    requires i < |lines| && StartsHunk(lines[i])
    ensures TilesFrom(lines, BlockEnd(lines, i + 1)) ==> TilesFrom(lines, i)
  {
    var end := BlockEnd(lines, i + 1);
    if TilesFrom(lines, end) {
      forall j | i <= j < |lines| && Marked(lines[j]) ensures StartsHunk(lines[j]) {
        assert j == i || end <= j;
      }
    }
  }

  lemma SkippedLineIsLost(lines: seq<string>, i: nat, staged: bool)
    requires i < |lines| && !StartsHunk(lines[i])
    ensures HunksFrom(lines, i, staged) == HunksFrom(lines, i + 1, staged)
    ensures Size(lines[i..]) > Size(lines[i + 1..])
  {
    assert lines[i..][1..] == lines[i + 1..];
  }

  /** The blocks never hold more than the lines they come from, and as much only where they tile. */
  lemma {:induction false} BlocksFit(lines: seq<string>, i: nat, staged: bool)
    requires i <= |lines|
    ensures Size(Diffs(HunksFrom(lines, i, staged))) <= Size(lines[i..])
    ensures Size(Diffs(HunksFrom(lines, i, staged))) == Size(lines[i..]) ==> TilesFrom(lines, i)
    decreases |lines| - i
  {
    if i < |lines| {
      if !StartsHunk(lines[i]) {
        SkippedLineIsLost(lines, i, staged);
        BlocksFit(lines, i + 1, staged);
      } else {
        BlocksFit(lines, BlockEnd(lines, i + 1), staged);
        BlockHoldsItsLines(lines, i, staged);
        TilesFromNext(lines, i);
      }
    }
  }

  /** The first line that starts a hunk, or the end. */
  function FirstHeader(lines: seq<string>, i: nat): (f: nat)
    requires i <= |lines|
    ensures i <= f <= |lines|
    decreases |lines| - i
  {
    if i == |lines| || StartsHunk(lines[i]) then i else FirstHeader(lines, i + 1)
  }

  lemma {:induction false} FirstHeaderIsFirst(lines: seq<string>, i: nat, j: nat)
    requires i <= |lines|
    ensures FirstHeader(lines, i) < |lines| ==> StartsHunk(lines[FirstHeader(lines, i)])
    ensures i <= j < FirstHeader(lines, i) ==> !StartsHunk(lines[j])
    decreases |lines| - i
  {
    if i < |lines| && !StartsHunk(lines[i]) {
      FirstHeaderIsFirst(lines, i + 1, j);
    }
  }

  lemma {:induction false} SkipsToFirstHeader(lines: seq<string>, i: nat, staged: bool)
    requires i <= |lines|
    ensures HunksFrom(lines, i, staged) == HunksFrom(lines, FirstHeader(lines, i), staged)
    decreases |lines| - i
  {
    if i < |lines| && !StartsHunk(lines[i]) {
      SkipsToFirstHeader(lines, i + 1, staged);
    }
  }

  /**
   * The blocks tile the diff from its first header to its end, with no line lost, shared or moved, exactly when
   * every line from there on that begins with "@@" is a header. Without a header there are no hunks at all.
   */
  lemma HunksTileExactlyWhenAllMarkedLinesAreHeaders(diff: string, staged: bool)
    ensures var lines := Text.Split(diff, '\n');
            var first := FirstHeader(lines, 0);
            var hunks := HunksFrom(lines, 0, staged);
            if first == |lines| then hunks == []
            else Text.Join(Diffs(hunks), '\n') == Text.Join(lines[first..], '\n') <==>
                 forall j | first <= j < |lines| && "@@" <= lines[j] :: ParseHeader(lines[j]).Some?
  {
    var lines := Text.Split(diff, '\n');
    var first := FirstHeader(lines, 0);
    var hunks := HunksFrom(lines, 0, staged);
    SkipsToFirstHeader(lines, 0, staged);
    FirstHeaderIsFirst(lines, 0, 0);
    assert AllHeaders(lines, first) <==> forall j | first <= j < |lines| && "@@" <= lines[j] :: ParseHeader(lines[j]).Some? by {
      assert forall j | 0 <= j < |lines| :: Marked(lines[j]) <==> "@@" <= lines[j];
    }
    if first < |lines| {
      if AllHeaders(lines, first) {
        BlocksTile(lines, first, staged);
      } else {
        BlocksFit(lines, first, staged);
        assert hunks == [HunkAt(lines, first, staged)] + HunksFrom(lines, BlockEnd(lines, first + 1), staged);
        JoinSize(Diffs(hunks));
        JoinSize(lines[first..]);
      }
    }
  }

  /** What precedes the first header and the text from it make up the diff. */
  lemma DiffFromFirstHeader(diff: string)
    ensures var lines := Text.Split(diff, '\n');
            var first := FirstHeader(lines, 0);
            0 < first < |lines| ==>
              diff == Text.Join(lines[..first], '\n') + "\n" + Text.Join(lines[first..], '\n')
  {
    var lines := Text.Split(diff, '\n');
    var first := FirstHeader(lines, 0);
    Text.JoinSplit(diff, '\n');
    if 0 < first < |lines| {
      Text.JoinConcat(lines[..first], lines[first..], '\n');
      assert lines == lines[..first] + lines[first..];
    }
  }

  /**
   * Every hunk can be read off its own text: its numbers are its first line's, and its first change lies as far
   * below both starts as there are context lines above it.
   */
  predicate ReadsItself(h: Hunk) {
    var own := Text.Split(h.diff, '\n');
    && ParseHeader(own[0]) == Some(h.header)
    && h.oldChangeStart - h.header.oldStart == ChangeOffset(own[1..])
    && h.newChangeStart - h.header.newStart == ChangeOffset(own[1..])
  }

  lemma {:induction false} HunksReadThemselves(lines: seq<string>, i: nat, staged: bool)
    requires i <= |lines| && forall line | line in lines :: '\n' !in line
    ensures forall h | h in HunksFrom(lines, i, staged) :: ReadsItself(h) && h.staged == staged
    decreases |lines| - i
  {
    if i < |lines| {
      if !StartsHunk(lines[i]) {
        HunksReadThemselves(lines, i + 1, staged);
      } else {
        var end := BlockEnd(lines, i + 1);
        HunksReadThemselves(lines, end, staged);
        Text.SplitJoin(lines[i..end], '\n');
        assert lines[i..end][1..] == lines[i + 1..end];
        assert ReadsItself(HunkAt(lines, i, staged));
      }
    }
  }

  lemma ParsedHunksReadThemselves(diff: string, staged: bool)
    ensures forall h | h in HunksFrom(Text.Split(diff, '\n'), 0, staged) :: ReadsItself(h) && h.staged == staged
  {
    HunksReadThemselves(Text.Split(diff, '\n'), 0, staged);
  }
}
