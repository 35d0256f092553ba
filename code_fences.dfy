/**
 * The Markdown code-fence extraction shared by the Python and the Bash REPL
 * tools (`_sanitize_multiline_python_script`, `_sanitize_multiline_bash_script`):
 * the input is stripped; when it contains "```", only the lines between the
 * first opening-fence line and the next closing-fence line are kept.
 */
module CodeFences {
  import opened Strings

  /** The closing fence, and the marker whose presence switches extraction on. */
  const Fence := "```"

  /** The lines kept after an opening fence: everything before the next closing-fence line. */
  function UntilFence(lines: seq<string>): (body: seq<string>)
  {
    if lines == [] || lines[0] == Fence then []
    else [lines[0]] + UntilFence(lines[1..])
  }

  /** The lines kept from `lines`: nothing before the first line in `openers`, then `UntilFence`. */
  function FencedBody(lines: seq<string>, openers: seq<string>): (body: seq<string>)
  {
    if lines == [] then []
    else if lines[0] in openers then UntilFence(lines[1..])
    else FencedBody(lines[1..], openers)
  }

  /** What the multi-line sanitiser returns for `script`. */
  function Extracted(script: string, openers: seq<string>): (r: string)
  {
    var s := Strip(script);
    if Contains(s, Fence) then Join(FencedBody(Split(s, "\n"), openers), "\n") else s
  }

  /**
   * `UntilFence` keeps the lines up to the first closing fence, or all of them
   * when there is none, and none of the kept lines is a fence.
   */
  lemma {:induction false} UntilFenceShape(lines: seq<string>)
    ensures exists c :: 0 <= c <= |lines| && UntilFence(lines) == lines[..c]
                        && (c == |lines| || lines[c] == Fence)
                        && (forall k :: 0 <= k < c ==> lines[k] != Fence)
    decreases |lines|
  {
    if lines == [] || lines[0] == Fence {
      assert UntilFence(lines) == lines[..0];
    } else {
      UntilFenceShape(lines[1..]);
      var c :| 0 <= c <= |lines[1..]| && UntilFence(lines[1..]) == lines[1..][..c]
               && (c == |lines[1..]| || lines[1..][c] == Fence)
               && (forall k :: 0 <= k < c ==> lines[1..][k] != Fence);
      assert UntilFence(lines) == lines[..c + 1];
      forall k | 0 <= k < c + 1 ensures lines[k] != Fence {
        if k > 0 {
          assert lines[k] == lines[1..][k - 1];
        }
      }
    }
  }

  /**
   * The kept lines are the lines strictly after the first opening fence `o`, up
   * to (not including) the next closing fence `c`, or to the end when there is
   * none; without an opening fence nothing is kept.
   */
  lemma {:induction false} FencedBodyShape(lines: seq<string>, openers: seq<string>)
    ensures (forall k :: 0 <= k < |lines| ==> lines[k] !in openers) ==> FencedBody(lines, openers) == []
    ensures forall o :: 0 <= o < |lines| && lines[o] in openers && (forall k :: 0 <= k < o ==> lines[k] !in openers)
              ==> FencedBody(lines, openers) == UntilFence(lines[o + 1..])
    decreases |lines|
  {
    if lines != [] {
      FencedBodyShape(lines[1..], openers);
      forall o | 0 < o < |lines| && lines[o] in openers && (forall k :: 0 <= k < o ==> lines[k] !in openers)
        ensures FencedBody(lines, openers) == UntilFence(lines[o + 1..])
      {
        assert lines[1..][o - 1] == lines[o];
        assert forall k :: 0 <= k < o - 1 ==> lines[1..][k] == lines[k + 1];
        assert lines[1..][o - 1 + 1..] == lines[o + 1..];
      }
    }
  }

  /** The extracted lines never include an opening or a closing fence line. */
  lemma NoFenceLineKept(lines: seq<string>, openers: seq<string>)
    requires Fence in openers
    ensures forall k :: 0 <= k < |FencedBody(lines, openers)| ==> FencedBody(lines, openers)[k] != Fence
  {
    FencedBodyShape(lines, openers);
    if exists o :: 0 <= o < |lines| && lines[o] in openers {
      var o := FirstOpener(lines, openers);
      UntilFenceShape(lines[o + 1..]);
    }
  }

  /** The index of the first opening-fence line. */
  function FirstOpener(lines: seq<string>, openers: seq<string>): (o: nat)
    requires exists o :: 0 <= o < |lines| && lines[o] in openers
    ensures o < |lines| && lines[o] in openers && forall k :: 0 <= k < o ==> lines[k] !in openers
  {
    if lines[0] in openers then 0
    else
      assert exists o :: 0 <= o < |lines[1..]| && lines[1..][o] in openers by {
        var o :| 0 <= o < |lines| && lines[o] in openers;
        assert lines[1..][o - 1] == lines[o];
      }
      1 + FirstOpener(lines[1..], openers)
  }

  /** Lines that hold no closing fence are all kept when a closing fence follows them. */
  lemma {:induction false} UntilFenceClosed(body: seq<string>)
    requires forall k :: 0 <= k < |body| ==> body[k] != Fence
    ensures UntilFence(body + [Fence]) == body
    decreases |body|
  {
    if body != [] {
      assert (body + [Fence])[1..] == body[1..] + [Fence];
      UntilFenceClosed(body[1..]);
    }
  }

  /** The extraction of a stripped script that contains a fence, given its lines. */
  lemma ExtractedFromLines(s: string, lines: seq<string>, openers: seq<string>)
    requires Strip(s) == s && Contains(s, Fence) && Split(s, "\n") == lines
    ensures Extracted(s, openers) == Join(FencedBody(lines, openers), "\n")
  {
  }

  /** Lines none of whose characters is a newline do not contain "\n". */
  lemma LinesWithoutNewline(lines: seq<string>)
    requires forall i, k :: 0 <= i < |lines| && 0 <= k < |lines[i]| ==> lines[i][k] != '\n'
    ensures forall i :: 0 <= i < |lines| ==> !Contains(lines[i], "\n")
  {
    forall i | 0 <= i < |lines| ensures !Contains(lines[i], "\n") {
      WithoutChar(lines[i], '\n');
    }
  }

  /** The one-per-line text of an opening fence, some lines and a closing fence splits back into them. */
  lemma FencedLines(opener: string, body: seq<string>)
    requires opener != [] && !IsSpace(opener[0]) && forall k :: 0 <= k < |opener| ==> opener[k] != '\n'
    requires forall i, k :: 0 <= i < |body| && 0 <= k < |body[i]| ==> body[i][k] != '\n'
    ensures var s := Join([opener] + body + [Fence], "\n");
      Strip(s) == s && Contains(s, Fence) && Split(s, "\n") == [opener] + body + [Fence]
  {
    var parts := [opener] + body + [Fence];
    forall i, k | 0 <= i < |parts| && 0 <= k < |parts[i]| ensures parts[i][k] != '\n' {
      if 0 < i < |parts| - 1 {
        assert parts[i] == body[i - 1];
      }
    }
    var s := Join(parts, "\n");
    JoinEnds(parts, "\n");
    assert s[0] == opener[0];
    assert s[|s| - 1] == '`';
    StripUnchanged(s);
    assert OccursAt(s, Fence, |s| - 3);
    ContainsAt(s, Fence, |s| - 3);
    LinesWithoutNewline(parts);
    SplitJoin(parts, "\n");
  }

  /**
   * Wrapping lines in an opening fence and a closing fence, one per line, and
   * extracting them again gives back the lines, provided none of them is a
   * closing fence.
   */
  lemma FencedRoundTrip(opener: string, body: seq<string>, openers: seq<string>)
    requires opener in openers && opener != [] && !IsSpace(opener[0])
    requires forall k :: 0 <= k < |opener| ==> opener[k] != '\n'
    requires forall i, k :: 0 <= i < |body| && 0 <= k < |body[i]| ==> body[i][k] != '\n'
    requires forall i :: 0 <= i < |body| ==> body[i] != Fence
    ensures Extracted(Join([opener] + body + [Fence], "\n"), openers) == Join(body, "\n")
  {
    var tail := body + [Fence];
    var parts := [opener] + tail;
    assert parts == [opener] + body + [Fence];
    FencedLines(opener, body);
    ExtractedFromLines(Join(parts, "\n"), parts, openers);
    assert parts[1..] == tail;
    UntilFenceClosed(body);
  }

  /**
   * The `is_code` loop of `_sanitize_multiline_*_script`, on a stripped script
   * that contains "```": skip to the first opening fence, keep lines until the
   * closing fence.
   */
  method CodeLines(lines: seq<string>, openers: seq<string>) returns (scriptLines: seq<string>)
    ensures scriptLines == FencedBody(lines, openers)
  {
    var isCode := false;
    scriptLines := [];
    var i := 0;
    while i < |lines|
      invariant 0 <= i <= |lines|
      invariant !isCode ==> scriptLines == [] && FencedBody(lines, openers) == FencedBody(lines[i..], openers)
      invariant isCode ==> FencedBody(lines, openers) == scriptLines + UntilFence(lines[i..])
    {
      var line := lines[i];
      assert lines[i..][1..] == lines[i + 1..];
      if !isCode && line in openers {
        isCode := true;
      } else if isCode && line == Fence {
        break;
      } else if isCode {
        scriptLines := scriptLines + [line];
      }
      i := i + 1;
    }
  }

  /** `_sanitize_multiline_*_script` with the given opening fences. */
  method SanitizeMultiline(script: string, openers: seq<string>) returns (r: string)
    ensures r == Extracted(script, openers)
  {
    var s := Strip(script);
    if Contains(s, Fence) {
      var lines := Split(s, "\n");
      var scriptLines := CodeLines(lines, openers);
      return Join(scriptLines, "\n");
    }
    return s;
  }
}
