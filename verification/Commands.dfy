/** Custom commands: splitting a file's frontmatter off, and discovering the files by precedence. */
module Commands {
  import opened Wrappers
  import Text

  // ------------------------------------------------------------------------------------------------
  // The frontmatter splitter
  // ------------------------------------------------------------------------------------------------

  const DELIMITER := "---"

  /** The first line without its newline, and the rest; nothing of an empty text. */
  function CutLine(s: string): (r: Option<(string, string)>)
    ensures r.Some? ==> '\n' !in r.value.0 && |r.value.1| < |s|
    ensures r.Some? ==> s == r.value.0 + "\n" + r.value.1 || (s == r.value.0 && r.value.1 == "")
  {
    var i := Text.IndexOf(s, '\n');
    if s == "" then None else if i == |s| then Some((s, "")) else Some((s[..i], s[i + 1..]))
  }

  function TrimCR(line: string): string {
    Text.TrimRight(line, '\r')
  }

  predicate Delimits(line: string) {
    TrimCR(line) == DELIMITER
  }

  /** A delimiter line is three hyphens, with any carriage returns behind them. */
  lemma DelimitsExactly(line: string)
    ensures Delimits(line) <==> "---" <= line && forall i | 3 <= i < |line| :: line[i] == '\r'
  {
    var kept := TrimCR(line);
    if "---" <= line && forall i | 3 <= i < |line| :: line[i] == '\r' {
      assert line[2] == '-';
      assert |kept| >= 3 && kept[|kept| - 1] == line[|kept| - 1];
      assert kept == line[..3];
    }
  }

  /** And a line loses exactly the carriage returns at its end. */
  lemma TrimCRMeans(line: string)
    ensures var kept := TrimCR(line);
            && kept <= line && (kept == "" || kept[|kept| - 1] != '\r')
            && forall i | |kept| <= i < |line| :: line[i] == '\r'
  {
  }

  /** The lines up to the closing delimiter, each without its trailing carriage returns, and what follows it. */
  datatype Block = Block(lines: seq<string>, body: string)

  function ReadBlock(rest: string): Option<Block>
    decreases |rest|
  {
    var cut := CutLine(rest);
    if cut.None? then None
    else if Delimits(cut.value.0) then Some(Block([], cut.value.1))
    else Prepend([TrimCR(cut.value.0)], ReadBlock(cut.value.1))
  }

  function Prepend(lines: seq<string>, b: Option<Block>): Option<Block> {
    if b.None? then None else Some(Block(lines + b.value.lines, b.value.body))
  }

  datatype Parts = Parts(frontmatter: string, body: string, has: bool)

  function SplitAt(content: string): Parts {
    var first := CutLine(content);
    if first.None? || !Delimits(first.value.0) then Parts("", content, false)
    else
      var block := ReadBlock(first.value.1);
      if block.None? then Parts("", content, false) else Parts(Text.Join(block.value.lines, '\n'), block.value.body, true)
  }

  method SplitFrontmatter(content: string) returns (parts: Parts)
    ensures parts == SplitAt(content)
  {
    var first := CutLine(content);
    if first.None? || TrimCR(first.value.0) != DELIMITER {
      return Parts("", content, false);
    }
    var rest := first.value.1;
    var lines: seq<string> := [];
    PrependNothing(ReadBlock(rest));
    while true
      invariant Prepend(lines, ReadBlock(rest)) == ReadBlock(first.value.1)
      decreases |rest|
    {
      var cut := CutLine(rest);
      if cut.None? {
        return Parts("", content, false);
      }
      var (line, restAfter) := cut.value;
      if TrimCR(line) == DELIMITER {
        assert lines + [] == lines;
        return Parts(Text.Join(lines, '\n'), restAfter, true);
      }
      assert forall b: Option<Block> :: Prepend(lines, Prepend([TrimCR(line)], b)) == Prepend(lines + [TrimCR(line)], b) by {
        PrependTwice(lines, TrimCR(line));
      }
      lines := lines + [TrimCR(line)];
      rest := restAfter;
    }
  }

  lemma PrependNothing(b: Option<Block>)
    ensures Prepend([], b) == b
  {
    if b.Some? {
      assert [] + b.value.lines == b.value.lines;
    }
  }

  lemma PrependTwice(lines: seq<string>, line: string)
    ensures forall b: Option<Block> :: Prepend(lines, Prepend([line], b)) == Prepend(lines + [line], b)
  {
    forall b: Option<Block> ensures Prepend(lines, Prepend([line], b)) == Prepend(lines + [line], b) {
      if b.Some? {
        assert lines + ([line] + b.value.lines) == lines + [line] + b.value.lines;
      }
    }
  }

  // ------------------------------------------------------------------------------------------------
  // What it splits
  // ------------------------------------------------------------------------------------------------

  /** Lines as they stand in the file, each with its newline. */
  function Unlines(raws: seq<string>): string {
    if raws == [] then "" else raws[0] + "\n" + Unlines(raws[1..])
  }

  function Trims(raws: seq<string>): (lines: seq<string>)
    ensures |lines| == |raws|
  {
    if raws == [] then [] else [TrimCR(raws[0])] + Trims(raws[1..])
  }

  /** The closing delimiter with the body behind it, or as the last line of the file. */
  predicate Closes(text: string, closer: string, body: string) {
    '\n' !in closer && Delimits(closer) && (text == closer + "\n" + body || (text == closer && body == ""))
  }

  predicate Inner(raws: seq<string>) {
    forall i | 0 <= i < |raws| :: '\n' !in raws[i] && !Delimits(raws[i])
  }

  lemma CutLineFinds(line: string, rest: string)
    requires '\n' !in line
    ensures CutLine(line + "\n" + rest) == Some((line, rest))
    ensures line != "" ==> CutLine(line) == Some((line, ""))
  {
    var s := line + "\n" + rest;
    assert s[|line|] == '\n' && s[..|line|] == line && s[|line| + 1..] == rest;
    Text.IndexOfCut(line, '\n', s);
    Text.IndexOfCut(line, '\n', line);
  }

  /** An inner line is read into the block, trimmed. */
  lemma InnerLineIsRead(line: string, rest: string)
    requires '\n' !in line && !Delimits(line)
    ensures ReadBlock(line + "\n" + rest) == Prepend([TrimCR(line)], ReadBlock(rest))
  {
    CutLineFinds(line, rest);
  }

  lemma CloserEndsTheBlock(tail: string, closer: string, body: string)
    requires Closes(tail, closer, body)
    ensures ReadBlock(tail) == Some(Block([], body))
  {
    CutLineFinds(closer, body);
  }

  lemma UnlinesHead(raws: seq<string>, tail: string)
    requires raws != []
    ensures Unlines(raws) + tail == raws[0] + "\n" + (Unlines(raws[1..]) + tail)
  {
  }

  lemma {:induction false} BlockIsRead(raws: seq<string>, tail: string, closer: string, body: string)
    requires Inner(raws) && Closes(tail, closer, body)
    ensures ReadBlock(Unlines(raws) + tail) == Some(Block(Trims(raws), body))
    decreases |raws|
  {
    if raws == [] {
      assert Unlines(raws) + tail == tail;
      CloserEndsTheBlock(tail, closer, body);
    } else {
      var rest := Unlines(raws[1..]) + tail;
      UnlinesHead(raws, tail);
      assert ReadBlock(rest) == Some(Block(Trims(raws[1..]), body)) by {
        BlockIsRead(raws[1..], tail, closer, body);
      }
      assert ReadBlock(raws[0] + "\n" + rest) == Prepend([TrimCR(raws[0])], ReadBlock(rest)) by {
        InnerLineIsRead(raws[0], rest);
      }
    }
  }

  /** A file laid out as frontmatter is split into its trimmed lines and its body, whatever the line endings. */
  lemma LaidOutFileSplits(opener: string, raws: seq<string>, tail: string, closer: string, body: string)
    requires '\n' !in opener && Delimits(opener) && Inner(raws) && Closes(tail, closer, body)
    ensures SplitAt(opener + "\n" + (Unlines(raws) + tail)) == Parts(Text.Join(Trims(raws), '\n'), body, true)
  {
    CutLineFinds(opener, Unlines(raws) + tail);
    BlockIsRead(raws, tail, closer, body);
  }

  /** The layout of a content that has frontmatter. */
  datatype Layout = Layout(opener: string, raws: seq<string>, tail: string, closer: string)

  ghost predicate LaysOut(l: Layout, content: string, parts: Parts) {
    && '\n' !in l.opener && Delimits(l.opener) && Inner(l.raws) && Closes(l.tail, l.closer, parts.body)
    && content == l.opener + "\n" + (Unlines(l.raws) + l.tail)
    && parts.frontmatter == Text.Join(Trims(l.raws), '\n')
  }

  lemma {:induction false} ReadBlockLaysOut(rest: string) returns (raws: seq<string>, tail: string, closer: string)
    requires ReadBlock(rest).Some?
    ensures Inner(raws) && Closes(tail, closer, ReadBlock(rest).value.body)
    ensures rest == Unlines(raws) + tail && ReadBlock(rest).value.lines == Trims(raws)
    decreases |rest|
  {
    var (line, after) := CutLine(rest).value;
    if Delimits(line) {
      raws, tail, closer := [], rest, line;
    } else {
      var more;
      more, tail, closer := ReadBlockLaysOut(after);
      raws := [line] + more;
      LineBefore(line, more, tail);
    }
  }

  lemma LineBefore(line: string, more: seq<string>, tail: string)
    ensures Unlines([line] + more) + tail == line + "\n" + (Unlines(more) + tail)
    ensures Trims([line] + more) == [TrimCR(line)] + Trims(more)
  {
    assert ([line] + more)[1..] == more;
    assert Unlines([line] + more) == line + "\n" + Unlines(more);
  }

  /**
   * There is frontmatter exactly when the file has such a layout, the parts are those of any layout it has, and a
   * file without one, an unterminated block included, comes back whole.
   */
  lemma SplitsExactlyLaidOutFiles(content: string)
    ensures var parts := SplitAt(content);
            && (parts.has ==> exists l :: LaysOut(l, content, parts))
            && (forall l, p | LaysOut(l, content, p) :: parts == Parts(p.frontmatter, p.body, true))
            && (!parts.has ==> parts.body == content && parts.frontmatter == "")
  {
    var parts := SplitAt(content);
    if parts.has {
      var (opener, rest) := CutLine(content).value;
      var raws, tail, closer := ReadBlockLaysOut(rest);
      assert rest != "";
      assert LaysOut(Layout(opener, raws, tail, closer), content, parts);
    }
    forall l, p | LaysOut(l, content, p) ensures parts == Parts(p.frontmatter, p.body, true) {
      LaidOutFileSplits(l.opener, l.raws, l.tail, l.closer, p.body);
    }
  }

  /** The plain rendering of a block. */
  function Rendered(lines: seq<string>, body: string): string {
    DELIMITER + "\n" + (Unlines(lines) + (DELIMITER + "\n" + body))
  }

  /** Splitting a rendered block gives the joined lines and the body back, for lines that survive as they are. */
  lemma RenderedBlockSplits(lines: seq<string>, body: string)
    requires forall i | 0 <= i < |lines| :: '\n' !in lines[i] && TrimCR(lines[i]) == lines[i] && lines[i] != DELIMITER
    ensures SplitAt(Rendered(lines, body)) == Parts(Text.Join(lines, '\n'), body, true)
  {
    TrimmedLinesStay(lines);
    assert TrimCR(DELIMITER) == DELIMITER;
    LaidOutFileSplits(DELIMITER, lines, DELIMITER + "\n" + body, DELIMITER, body);
  }

  lemma {:induction false} TrimmedLinesStay(lines: seq<string>)
    requires forall i | 0 <= i < |lines| :: TrimCR(lines[i]) == lines[i]
    ensures Trims(lines) == lines
  {
    if lines != [] {
      TrimmedLinesStay(lines[1..]);
    }
  }

  // ------------------------------------------------------------------------------------------------
  // Discovery: project commands before global ones, the first file of a name wins
  // ------------------------------------------------------------------------------------------------

  datatype Descriptor = Descriptor(name: string, template: string)

  /** A directory entry; a file that cannot be read has no template. */
  datatype File = File(name: string, isDir: bool, template: Option<string>)

  predicate NameChar(c: char) {
    'a' <= c <= 'z' || 'A' <= c <= 'Z' || '0' <= c <= '9' || c == '_' || c == '-'
  }

  /** A name that the chat input's grammar can spell. */
  method ValidCommandName(name: string) returns (valid: bool)
    ensures valid <==> Invocable(name)
    ensures valid <==> name != "" && forall i | 0 <= i < |name| ::
      'a' <= name[i] <= 'z' || 'A' <= name[i] <= 'Z' || '0' <= name[i] <= '9' || name[i] == '_' || name[i] == '-'
  {
    if name == "" {
      return false;
    }
    for i := 0 to |name|
      invariant forall j | 0 <= j < i :: NameChar(name[j])
    {
      if !NameChar(name[i]) {
        return false;
      }
    }
    valid := true;
  }

  predicate Invocable(name: string) {
    name != "" && forall i | 0 <= i < |name| :: NameChar(name[i])
  }

  const FILE_EXT := ".md"

  predicate HasExt(name: string) {
    |name| >= 3 && name[|name| - 3..] == FILE_EXT
  }

  /** The command a file would define. */
  function Offer(f: File): Option<Descriptor> {
    if f.isDir || !HasExt(f.name) || !Invocable(f.name[..|f.name| - 3]) || f.template.None? then None
    else Some(Descriptor(f.name[..|f.name| - 3], f.template.value))
  }

  /**
   * A file defines a command exactly when it is readable, is no directory, and its name is the command's with ".md"
   * behind it; the template is the file's.
   */
  lemma OfferMeans(f: File, d: Descriptor)
    ensures Offer(f) == Some(d) <==>
            !f.isDir && f.template == Some(d.template) && f.name == d.name + ".md" && d.name != ""
            && forall i | 0 <= i < |d.name| :: NameChar(d.name[i])
  {
    if |f.name| >= 3 {
      assert f.name == f.name[..|f.name| - 3] + f.name[|f.name| - 3..];
    }
    if f.name == d.name + ".md" {
      assert f.name[..|f.name| - 3] == d.name;
    }
  }

  function NamesOf(commands: seq<Descriptor>): set<string> {
    set d | d in commands :: d.name
  }

  /** The offers in order, each name once. */
  function FirstWins(files: seq<File>): (commands: seq<Descriptor>)
    decreases |files|
  {
    if files == [] then []
    else
      var before, offer := FirstWins(files[..|files| - 1]), Offer(files[|files| - 1]);
      if offer.None? || offer.value.name in NamesOf(before) then before else before + [offer.value]
  }

  /** The files of all the directories in order; a directory that cannot be read has none. */
  function Flatten(dirs: seq<seq<File>>): seq<File>
    decreases |dirs|
  {
    if dirs == [] then [] else Flatten(dirs[..|dirs| - 1]) + dirs[|dirs| - 1]
  }

  /** Every name that some file offers has one command, and it is that of the first file offering it. */
  lemma {:induction false} FirstOfferWins(files: seq<File>, k: nat)
    requires k < |files| && Offer(files[k]).Some?
    requires forall j | 0 <= j < k :: Offer(files[j]).None? || Offer(files[j]).value.name != Offer(files[k]).value.name
    ensures forall d | d in FirstWins(files) && d.name == Offer(files[k]).value.name :: d == Offer(files[k]).value
    ensures Offer(files[k]).value in FirstWins(files)
    decreases |files|
  {
    var front := files[..|files| - 1];
    if k < |front| {
      FirstOfferWins(front, k);
      assert Offer(files[k]).value.name in NamesOf(FirstWins(front));
    } else {
      OnlyOffersAppear(front);
    }
  }

  lemma {:induction false} OnlyOffersAppear(files: seq<File>)
    ensures forall d | d in FirstWins(files) :: exists j :: 0 <= j < |files| && Offer(files[j]) == Some(d)
    ensures forall i, j | 0 <= i < j < |FirstWins(files)| :: FirstWins(files)[i].name != FirstWins(files)[j].name
    decreases |files|
  {
    if files != [] {
      var front, last := files[..|files| - 1], files[|files| - 1];
      OnlyOffersAppear(front);
      forall d | d in FirstWins(files) ensures exists j :: 0 <= j < |files| && Offer(files[j]) == Some(d) {
        if d in FirstWins(front) {
          var j :| 0 <= j < |front| && Offer(front[j]) == Some(d);
          assert Offer(files[j]) == Some(d);
        } else {
          assert Offer(files[|files| - 1]) == Some(d);
        }
      }
      assert forall d | d in FirstWins(front) :: d.name in NamesOf(FirstWins(front));
    }
  }

  /** Command `i` comes from file `at[i]`, and later commands from later files. */
  ghost predicate Placed(files: seq<File>, commands: seq<Descriptor>, at: seq<nat>) {
    && |at| == |commands|
    && (forall i | 0 <= i < |at| :: at[i] < |files| && Offer(files[at[i]]) == Some(commands[i]))
    && (forall i, j | 0 <= i < j < |at| :: at[i] < at[j])
  }

  lemma PlacedStays(files: seq<File>, last: File, commands: seq<Descriptor>, at: seq<nat>)
    requires Placed(files, commands, at)
    ensures Placed(files + [last], commands, at)
  {
  }

  lemma PlacedGrows(files: seq<File>, last: File, commands: seq<Descriptor>, at: seq<nat>)
    requires Placed(files, commands, at) && Offer(last).Some?
    ensures Placed(files + [last], commands + [Offer(last).value], at + [|files|])
  {
  }

  /** The commands stand in the order of the files they come from. */
  lemma {:induction false} CommandsFollowTheFiles(files: seq<File>) returns (at: seq<nat>)
    ensures Placed(files, FirstWins(files), at)
    decreases |files|
  {
    if files == [] {
      at := [];
    } else {
      var front, last := files[..|files| - 1], files[|files| - 1];
      at := CommandsFollowTheFiles(front);
      LastFileAdds(files);
      assert files == front + [last];
      if FirstWins(files) == FirstWins(front) {
        PlacedStays(front, last, FirstWins(front), at);
      } else {
        PlacedGrows(front, last, FirstWins(front), at);
        at := at + [|front|];
      }
    }
  }

  /** The last file adds its command at the end, or nothing. */
  lemma LastFileAdds(files: seq<File>)
    requires files != []
    ensures var before, offer := FirstWins(files[..|files| - 1]), Offer(files[|files| - 1]);
            FirstWins(files) == before || (offer.Some? && FirstWins(files) == before + [offer.value])
  {
  }

  /** Directories come one after another, each with its files in order. */
  lemma {:induction false} DirectoriesInOrder(first: seq<File>, rest: seq<seq<File>>)
    ensures Flatten([first] + rest) == first + Flatten(rest)
    decreases |rest|
  {
    if rest == [] {
      assert [first][..0] == [];
    } else {
      var n := |rest| - 1;
      DirectoriesInOrder(first, rest[..n]);
      assert ([first] + rest)[..n + 1] == [first] + rest[..n] && ([first] + rest)[n + 1] == rest[n];
      assert first + Flatten(rest[..n]) + rest[n] == first + (Flatten(rest[..n]) + rest[n]);
    }
  }

  lemma OneMoreFile(files: seq<File>, f: File)
    ensures FirstWins(files + [f]) ==
            var before, offer := FirstWins(files), Offer(f);
            if offer.None? || offer.value.name in NamesOf(before) then before else before + [offer.value]
  {
    assert (files + [f])[..|files|] == files;
  }

  /** One directory, after the files seen so far. */
  method ScanDirectory(entries: seq<File>, ghost earlier: seq<File>, found: seq<Descriptor>, names: set<string>)
    returns (result: seq<Descriptor>, seen: set<string>)
    requires found == FirstWins(earlier) && names == NamesOf(found)
    ensures result == FirstWins(earlier + entries) && seen == NamesOf(result)
  {
    result, seen := found, names;
    assert earlier + entries[..0] == earlier;
    for k := 0 to |entries|
      invariant result == FirstWins(earlier + entries[..k]) && seen == NamesOf(result)
    {
      var f := entries[k];
      assert earlier + entries[..k + 1] == earlier + entries[..k] + [f];
      OneMoreFile(earlier + entries[..k], f);
      if f.isDir || !HasExt(f.name) {
        continue;
      }
      var name := f.name[..|f.name| - 3];
      var valid := ValidCommandName(name);
      if !valid || name in seen {
        continue;
      }
      if f.template.None? {
        continue;
      }
      NamesAppend(result, Descriptor(name, f.template.value));
      seen := seen + {name};
      result := result + [Descriptor(name, f.template.value)];
    }
    assert entries[..|entries|] == entries;
  }

  lemma NamesAppend(commands: seq<Descriptor>, d: Descriptor)
    ensures NamesOf(commands + [d]) == NamesOf(commands) + {d.name}
  {
    assert forall x :: x in commands + [d] <==> x in commands || x == d;
  }

  /** `projectDir` is the project's own command directory, absent without a project. */
  method ScanCommands(projectDir: Option<seq<File>>, baseDirs: seq<seq<File>>) returns (result: seq<Descriptor>)
    ensures result == FirstWins(Flatten((if projectDir.Some? then [projectDir.value] else []) + baseDirs))
  {
    var dirs := (if projectDir.Some? then [projectDir.value] else []) + baseDirs;
    result := [];
    var seen: set<string> := {};
    for i := 0 to |dirs|
      invariant result == FirstWins(Flatten(dirs[..i])) && seen == NamesOf(result)
    {
      assert dirs[..i + 1][..i] == dirs[..i];
      result, seen := ScanDirectory(dirs[i], Flatten(dirs[..i]), result, seen);
    }
    assert dirs[..|dirs|] == dirs;
  }
}
