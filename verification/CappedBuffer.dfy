/** The capped capture of a git command's output, filled in whatever pieces the pipes deliver. One char is one byte. */
module CappedBuffer {
  import Text

  /** 64 KiB. */
  const LIMIT: nat := 64 * 1024

  const MARKER := "\n[output truncated at 64 KiB]"

  function Concat(chunks: seq<string>): string
    decreases |chunks|
  {
    if chunks == [] then "" else Concat(chunks[..|chunks| - 1]) + chunks[|chunks| - 1]
  }

  /** What is reported of an output: its first LIMIT bytes, trimmed, and the marker exactly when there was more. */
  function Captured(total: string, trim: string -> string): string {
    if |total| <= LIMIT then trim(total) else trim(total[..LIMIT]) + MARKER
  }

  class LimitedBuffer {
    var b: string
    var written: int
    var truncated: bool
    ghost var total: string

    ghost predicate Valid()
      reads this
    {
      && written == |total|
      && (truncated <==> |total| > LIMIT)
      && b == if truncated then total[..LIMIT] else total
    }

    constructor ()
      ensures Valid() && total == ""
    {
      b, written, truncated, total := "", 0, false, "";
    }

    /** Bytes past the limit are counted and dropped; the writer is always told that everything went through. */
    method Write(p: string) returns (n: int)
      requires Valid()
      modifies this
      ensures Valid() && total == old(total) + p && n == |p|
    {
      total := total + p;
      if truncated {
        written := written + |p|;
        return |p|;
      }
      var room := LIMIT - written;
      if |p| > room {
        b := b + p[..if room > 0 then room else 0];
        written := written + |p|;
        truncated := true;
        return |p|;
      }
      b := b + p;
      written := written + |p|;
      n := |p|;
    }

    /** `trim` is strings.TrimSpace. */
    method String(trim: string -> string) returns (out: string)
      requires Valid()
      ensures out == Captured(total, trim)
      ensures out == if |total| <= 65536 then trim(total) else trim(total[..65536]) + "\n[output truncated at 64 KiB]"
    {
      out := trim(b);
      if truncated {
        out := out + MARKER;
      }
    }
  }

  /** However the pipes cut the output up, only what it adds up to is reported. */
  method CopyOutput(chunks: seq<string>, trim: string -> string) returns (out: string)
    ensures out == Captured(Concat(chunks), trim)
  {
    var buffer := new LimitedBuffer();
    for i := 0 to |chunks|
      invariant buffer.Valid() && fresh(buffer) && buffer.total == Concat(chunks[..i])
    {
      assert chunks[..i + 1][..i] == chunks[..i];
      var n := buffer.Write(chunks[i]);
    }
    assert chunks[..|chunks|] == chunks;
    out := buffer.String(trim);
  }

  lemma ConcatSnoc(chunks: seq<string>, chunk: string)
    ensures Concat(chunks + [chunk]) == Concat(chunks) + chunk
  {
    assert (chunks + [chunk])[..|chunks|] == chunks;
  }

  /** Cutting one piece in two changes nothing, so all ways of cutting one output agree. */
  lemma {:induction false} ConcatConcat(a: seq<string>, b: seq<string>)
    ensures Concat(a + b) == Concat(a) + Concat(b)
    decreases |b|
  {
    if b == [] {
      assert a + b == a;
    } else {
      var front, last := b[..|b| - 1], b[|b| - 1];
      ConcatConcat(a, front);
      ConcatSnoc(front, last);
      ConcatSnoc(a + front, last);
      assert b == front + [last] && a + b == a + front + [last];
      assert Concat(a) + (Concat(front) + last) == Concat(a) + Concat(front) + last;
    }
  }

  lemma ConcatOne(chunk: string)
    ensures Concat([chunk]) == chunk
  {
    assert [chunk][..0] == [];
    assert "" + chunk == chunk;
  }

  lemma SplittingAChunkIsInvisible(before: seq<string>, left: string, right: string, after: seq<string>,
                                   trim: string -> string)
    ensures Captured(Concat(before + [left + right] + after), trim) == Captured(Concat(before + [left, right] + after), trim)
  {
    ConcatConcat(before + [left + right], after);
    ConcatConcat(before + [left, right], after);
    ConcatConcat(before, [left + right]);
    ConcatConcat(before, [left, right]);
    ConcatOne(left + right);
    ConcatOne(left);
    assert [left, right][..1] == [left];
    assert Concat(before) + (left + right) == Concat(before) + left + right;
  }

  /** What the remote operations do to an output they hold in full. */
  function TruncateGitOutput(out: string): string {
    if |out| <= LIMIT then out else out[..LIMIT] + MARKER
  }

  lemma {:induction false} TrimLeftShortens(s: string)
    ensures |Text.TrimLeftSpace(s)| <= |s|
    ensures |Text.TrimLeftSpace(s)| == |s| <==> s == "" || !Text.IsSpace(s[0])
    decreases |s|
  {
    if s != "" && Text.IsSpace(s[0]) {
      TrimLeftShortens(s[1..]);
    }
  }

  lemma TrimRightShortens(s: string)
    ensures |Text.TrimRightSpace(s)| == |s| <==> s == "" || !Text.IsSpace(s[|s| - 1])
  {
    Text.TrimRightMeans(s);
    if s != "" && Text.IsSpace(s[|s| - 1]) {
      Text.TrimRightMeans(s[..|s| - 1]);
    }
  }

  /** Trimming leaves the length exactly where there is no outer white space, and then the text. */
  lemma TrimmedLength(s: string)
    ensures |Text.TrimSpace(s)| <= |s|
    ensures |Text.TrimSpace(s)| == |s| <==> s == "" || (!Text.IsSpace(s[0]) && !Text.IsSpace(s[|s| - 1]))
  {
    TrimLeftShortens(s);
    Text.TrimRightMeans(Text.TrimLeftSpace(s));
    TrimRightShortens(Text.TrimLeftSpace(s));
    if |Text.TrimLeftSpace(s)| == |s| {
      assert Text.TrimLeftSpace(s) == s;
    }
  }

  /**
   * The streaming cap cuts before it trims, the other one after. They agree exactly on outputs within the limit and
   * on longer ones whose first LIMIT bytes neither begin nor end with white space; where trimming brings a longer
   * output within the limit only the streaming cap marks it.
   */
  lemma CapsAgreeExactly(total: string)
    ensures var text := Text.TrimSpace(total);
            Captured(total, Text.TrimSpace) == TruncateGitOutput(text) <==>
            if |total| <= LIMIT then true
            else if |text| <= LIMIT then text == Text.TrimSpace(total[..LIMIT]) + MARKER
            else !Text.IsSpace(total[0]) && !Text.IsSpace(total[LIMIT - 1])
  {
    TrimmedLength(total);
    var text := Text.TrimSpace(total);
    if |total| > LIMIT && |text| > LIMIT {
      var cut := total[..LIMIT];
      TrimmedLength(cut);
      assert cut[0] == total[0] && cut[LIMIT - 1] == total[LIMIT - 1];
      if !Text.IsSpace(total[0]) && !Text.IsSpace(total[LIMIT - 1]) {
        Text.TrimSpaceFixed(cut);
        Text.TrimRightMeans(total);
        assert text[..LIMIT] == cut;
      } else {
        assert |Text.TrimSpace(cut) + MARKER| < |text[..LIMIT] + MARKER|;
      }
    }
  }

  /** The reported text is never longer than the limit and the marker. */
  lemma CapturedIsBounded(total: string, trim: string -> string)
    requires forall s :: |trim(s)| <= |s|
    ensures |Captured(total, trim)| <= LIMIT + |MARKER|
    ensures var out := Captured(total, trim);
            |total| > LIMIT ==> |out| >= |MARKER| && out[|out| - |MARKER|..] == MARKER
  {
  }
}
