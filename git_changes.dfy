/**
 * The diff splitter inside the `get_changes` tool built by
 * `create_get_changes`: the output of `git diff` is cut into one segment per
 * file, and each non-blank segment becomes an entry with the file's path, its
 * changes, and the file's content at the new branch as `git show` reports it.
 * The git commands are parameters: `fetched` and `diffOutput` are the outcomes
 * of `git fetch` and `git diff`, and `show` maps a `<branch>:<path>` argument
 * to what `git show` prints or to the error it fails with.
 */
module GitChanges {
  import opened Wrappers
  import opened Strings

  /** The text the diff output is split on. */
  const DiffMarker := "diff --git"

  /** One entry of the returned list (the dictionary with `file_path`, `changes`, `current_content`). */
  datatype FileChange = FileChange(filePath: string, changes: string, currentContent: string)

  /** Python's `s[2:]`. */
  function DropTwo(s: string): (r: string)
    ensures |s| >= 2 ==> s == s[..2] + r
    ensures |s| < 2 ==> r == ""
  {
    if |s| >= 2 then s[2..] else ""
  }

  /** The file path of a segment: the last space-separated token of its first line, without its first two characters. */
  function PathOf(segment: string): (path: string)
  {
    var tokens := Split(Split(segment, "\n")[0], " ");
    DropTwo(tokens[|tokens| - 1])
  }

  /** The changes of a segment: all its lines but the first, joined again. */
  function ChangesOf(segment: string): (changes: string)
  {
    Join(Split(segment, "\n")[1..], "\n")
  }

  /** A whitespace-only segment, which `strip()` reduces to "" and the loop skips. */
  predicate Blank(segment: string)
  {
    forall k :: 0 <= k < |segment| ==> IsSpace(segment[k])
  }

  /** The `git show` argument for a path. */
  function ShowArgument(newBranch: string, path: string): string
  {
    newBranch + ":" + path
  }

  /** The segments that describe a file, in order. */
  function FileSegments(segments: seq<string>): (kept: seq<string>)
    ensures |kept| <= |segments|
  {
    if segments == [] then []
    else if Blank(segments[0]) then FileSegments(segments[1..])
    else [segments[0]] + FileSegments(segments[1..])
  }

  /** The segments kept are exactly the non-blank ones. */
  lemma {:induction false} FileSegmentsNonBlank(segments: seq<string>)
    ensures forall s :: s in FileSegments(segments) <==> s in segments && !Blank(s)
    decreases |segments|
  {
    if segments != [] {
      FileSegmentsNonBlank(segments[1..]);
      assert segments == [segments[0]] + segments[1..];
    }
  }

  /** The entry for one non-blank segment, or the error `git show` fails with for its path. */
  function Entry(segment: string, newBranch: string, show: string -> Result<string, string>): (r: Result<FileChange, string>)
    ensures r.Success? <==> show(ShowArgument(newBranch, PathOf(segment))).Success?
    ensures r.Success? ==> r.value.filePath == PathOf(segment) && r.value.changes == ChangesOf(segment)
                           && Success(r.value.currentContent) == show(ShowArgument(newBranch, r.value.filePath))
    ensures r.Failure? ==> r == Failure(show(ShowArgument(newBranch, PathOf(segment))).error)
  {
    var path := PathOf(segment);
    match show(ShowArgument(newBranch, path))
    case Failure(e) => Failure(e)
    case Success(content) => Success(FileChange(path, ChangesOf(segment), content))
  }

  /** `acc` followed by the entries of `rest`, or the failure of `rest`. */
  function Then(acc: seq<FileChange>, rest: Result<seq<FileChange>, string>): (r: Result<seq<FileChange>, string>)
    ensures r.Success? <==> rest.Success?
    ensures r.Success? ==> r.value == acc + rest.value
    ensures r.Failure? ==> r == rest
    ensures acc == [] ==> r == rest
  {
    if rest.Success? then
      assert acc == [] ==> acc + rest.value == rest.value;
      Success(acc + rest.value)
    else rest
  }

  /** Moving one entry from the result in progress to the accumulated list changes nothing. */
  lemma ThenAppend(acc: seq<FileChange>, entry: FileChange, rest: Result<seq<FileChange>, string>)
    ensures Then(acc, Then([entry], rest)) == Then(acc + [entry], rest)
  {
    if rest.Success? {
      assert acc + ([entry] + rest.value) == acc + [entry] + rest.value;
    }
  }

  /** What the loop over `segments` returns: the entries in order, or the first `git show` failure. */
  function Changes(segments: seq<string>, newBranch: string, show: string -> Result<string, string>): (r: Result<seq<FileChange>, string>)
  {
    if segments == [] then Success([])
    else if Blank(segments[0]) then Changes(segments[1..], newBranch, show)
    else
      match Entry(segments[0], newBranch, show)
      case Failure(e) => Failure(e)
      case Success(entry) => Then([entry], Changes(segments[1..], newBranch, show))
  }

  /** `git show` succeeds for the path of every one of `kept`. */
  predicate AllShown(kept: seq<string>, newBranch: string, show: string -> Result<string, string>)
  {
    forall k :: 0 <= k < |kept| ==> Entry(kept[k], newBranch, show).Success?
  }

  /** The loop succeeds exactly when `git show` succeeds for the path of every non-blank segment. */
  lemma {:induction false} ChangesSucceed(segments: seq<string>, newBranch: string, show: string -> Result<string, string>)
    ensures Changes(segments, newBranch, show).Success? <==> AllShown(FileSegments(segments), newBranch, show)
    decreases |segments|
  {
    if segments == [] {
      assert FileSegments(segments) == [] && Changes(segments, newBranch, show).Success?;
    } else {
      var tail := FileSegments(segments[1..]);
      var rest := Changes(segments[1..], newBranch, show);
      ChangesSucceed(segments[1..], newBranch, show);
      if Blank(segments[0]) {
        assert FileSegments(segments) == tail;
        assert Changes(segments, newBranch, show) == rest;
      } else {
        var kept := [segments[0]] + tail;
        assert FileSegments(segments) == kept;
        var e := Entry(segments[0], newBranch, show);
        assert Changes(segments, newBranch, show) == if e.Failure? then Failure(e.error) else Then([e.value], rest);
        if AllShown(kept, newBranch, show) {
          assert kept[0] == segments[0];
          forall k | 0 <= k < |tail| ensures Entry(tail[k], newBranch, show).Success? {
            assert kept[k + 1] == tail[k];
          }
        } else {
          var k :| 0 <= k < |kept| && Entry(kept[k], newBranch, show).Failure?;
          if k > 0 {
            assert kept[k] == tail[k - 1];
          }
        }
      }
    }
  }

  /**
   * On success the loop returns one entry per non-blank segment, in order
   * (each with the path, the changes and the `git show` content of `Entry`).
   */
  lemma {:induction false} ChangesEntries(segments: seq<string>, newBranch: string, show: string -> Result<string, string>)
    requires Changes(segments, newBranch, show).Success?
    ensures var kept := FileSegments(segments);
      var entries := Changes(segments, newBranch, show).value;
      && |entries| == |kept|
      && forall k :: 0 <= k < |kept| ==> Success(entries[k]) == Entry(kept[k], newBranch, show)
    decreases |segments|
  {
    if segments == [] {
      return;
    }
    var tail := FileSegments(segments[1..]);
    var entries := Changes(segments, newBranch, show).value;
    if Blank(segments[0]) {
      assert FileSegments(segments) == tail;
      ChangesEntries(segments[1..], newBranch, show);
    } else {
      var kept := [segments[0]] + tail;
      assert FileSegments(segments) == kept;
      var e := Entry(segments[0], newBranch, show);
      var rest := Changes(segments[1..], newBranch, show);
      assert Changes(segments, newBranch, show) == Then([e.value], rest);
      ChangesEntries(segments[1..], newBranch, show);
      assert entries == [e.value] + rest.value;
      forall k | 0 <= k < |kept| ensures Success(entries[k]) == Entry(kept[k], newBranch, show) {
        if k > 0 {
          assert kept[k] == tail[k - 1] && entries[k] == rest.value[k - 1];
        }
      }
    }
  }

  /** A segment is its first line, then (when there are more lines) a newline and its changes. */
  lemma SegmentRebuilt(segment: string)
    ensures var lines := Split(segment, "\n");
      |lines| == 1 ==> ChangesOf(segment) == "" && lines[0] == segment
    ensures var lines := Split(segment, "\n");
      |lines| > 1 ==> lines[0] + "\n" + ChangesOf(segment) == segment
  {
    JoinSplit(segment, "\n");
  }

  /** The part of `x + [c] + y` after its last `c` is `y`, when `y` holds no `c`. */
  lemma {:induction false} SplitLast(x: string, c: char, y: string)
    requires forall k :: 0 <= k < |y| ==> y[k] != c
    ensures var parts := Split(x + [c] + y, [c]); parts[|parts| - 1] == y
    decreases |x|
  {
    var s := x + [c] + y;
    assert OccursAt(s, [c], |x|);
    var i := IndexOf(s, [c]).value;
    var rest := s[i + 1..];
    SplitStep(s, [c], i);
    if i == |x| {
      assert rest == y;
      WithoutChar(y, c);
      SplitWithoutSeparator(y, [c]);
    } else {
      assert rest == x[i + 1..] + [c] + y;
      SplitLast(x[i + 1..], c, y);
    }
  }

  /** The part of `x + [c] + y` before its first `c` is `x`, when `x` holds no `c`. */
  lemma SplitFirst(x: string, c: char, y: string)
    requires forall k :: 0 <= k < |x| ==> x[k] != c
    ensures Split(x + [c] + y, [c])[0] == x
  {
    var s := x + [c] + y;
    assert OccursAt(s, [c], |x|);
    forall j: nat | j < |x| ensures !OccursAt(s, [c], j) {
      assert s[j..j + 1][0] == x[j];
    }
    IndexOfAt(s, [c], |x|);
    assert s[..|x|] == x;
  }

  /**
   * For a segment that starts with the header git writes, ` a/<old> b/<path>`,
   * the extracted path is `<path>`, provided neither it contains a space nor the
   * header a newline.
   */
  lemma HeaderPath(oldSide: string, path: string, rest: string)
    requires forall k :: 0 <= k < |oldSide| ==> oldSide[k] != '\n'
    requires forall k :: 0 <= k < |path| ==> path[k] != '\n' && path[k] != ' '
    ensures PathOf(" a/" + oldSide + " b/" + path + "\n" + rest) == path
  {
    var head := " a/" + oldSide;
    var line := head + " b/" + path;
    assert " a/" + oldSide + " b/" + path + "\n" + rest == line + ['\n'] + rest;
    assert forall k :: 0 <= k < |line| ==> line[k] != '\n' by {
      forall k | 0 <= k < |line| ensures line[k] != '\n' {
        if k >= |head| + 3 {
          assert line[k] == path[k - |head| - 3];
        } else if k >= |head| {
          assert line[k] == " b/"[k - |head|];
        } else if k >= 3 {
          assert line[k] == oldSide[k - 3];
        }
      }
    }
    SplitFirst(line, '\n', rest);
    var token := "b/" + path;
    assert line == head + [' '] + token;
    assert forall k :: 0 <= k < |token| ==> token[k] != ' ' by {
      forall k | 0 <= k < |token| ensures token[k] != ' ' {
        if k >= 2 {
          assert token[k] == path[k - 2];
        }
      }
    }
    SplitLast(head, ' ', token);
    assert token[2..] == path;
  }

  /** The splitting loop of `get_changes`, given the output of `git diff`. */
  method SplitDiff(diffOutput: string, newBranch: string, show: string -> Result<string, string>)
    returns (r: Result<seq<FileChange>, string>)
    ensures r == Changes(Split(diffOutput, DiffMarker), newBranch, show)
  {
    var fileDiffs := Split(diffOutput, DiffMarker);
    var diffList: seq<FileChange> := [];
    assert fileDiffs[0..] == fileDiffs;
    for i := 0 to |fileDiffs|
      invariant Changes(fileDiffs, newBranch, show) == Then(diffList, Changes(fileDiffs[i..], newBranch, show))
    {
      var fileDiff := fileDiffs[i];
      ghost var later := Changes(fileDiffs[i + 1..], newBranch, show);
      assert fileDiffs[i..][0] == fileDiff && fileDiffs[i..][1..] == fileDiffs[i + 1..];
      StripEmptyIffBlank(fileDiff);
      if Strip(fileDiff) == "" {
        assert Changes(fileDiffs[i..], newBranch, show) == later;
        continue;
      }
      var filePath := PathOf(fileDiff);
      var changes := ChangesOf(fileDiff);
      var fileContentResult := show(ShowArgument(newBranch, filePath));
      if fileContentResult.Failure? {
        assert Changes(fileDiffs[i..], newBranch, show) == Failure(fileContentResult.error);
        return Failure(fileContentResult.error);
      }
      var entry := FileChange(filePath, changes, fileContentResult.value);
      assert Changes(fileDiffs[i..], newBranch, show) == Then([entry], later);
      ThenAppend(diffList, entry, later);
      diffList := diffList + [entry];
    }
    assert fileDiffs[|fileDiffs|..] == [] && diffList + [] == diffList;
    return Success(diffList);
  }

  /** `get_changes`: a failing `git fetch` or `git diff` raises before any splitting. */
  method GetChanges(fetched: Outcome<string>, diffOutput: Result<string, string>, newBranch: string,
                    show: string -> Result<string, string>)
    returns (r: Result<seq<FileChange>, string>)
    ensures fetched.Fail? ==> r == Failure(fetched.error)
    ensures fetched.Pass? && diffOutput.Failure? ==> r == Failure(diffOutput.error)
    ensures fetched.Pass? && diffOutput.Success? ==> r == Changes(Split(diffOutput.value, DiffMarker), newBranch, show)
  {
    if fetched.Fail? {
      return Failure(fetched.error);
    }
    if diffOutput.Failure? {
      return Failure(diffOutput.error);
    }
    r := SplitDiff(diffOutput.value, newBranch, show);
  }
}
