/**
 * The script sanitiser of the Bash REPL tool (`_sanitize_bash_script` and
 * `_sanitize_multiline_bash_script`): pull the code out of a Markdown fence,
 * then drop one pair of backquotes around a single-line script.
 *
 * As written, the unquoting step reads `script[0]` on an empty script and
 * raises `IndexError`; `SanitizeBashScriptAsWritten` keeps that behaviour and
 * `SanitizeBashScript` is the corrected sanitiser, which returns the empty
 * script unchanged.
 */
module BashRepl {
  import opened Wrappers
  import opened Strings
  import opened CodeFences

  /** The lines that open a Bash code block. */
  const BashOpeners: seq<string> := ["```bash", "```sh", Fence]

  /** The message of the `IndexError` Python raises for `""[0]`. */
  const IndexOutOfRange := "string index out of range"

  /** A non-empty, single-line text whose first and last characters are backquotes. */
  predicate InlineQuoted(s: string)
  {
    s != [] && '\n' !in s && s[0] == '`' && s[|s| - 1] == '`'
  }

  /**
   * The final step of `_sanitize_bash_script` as written: an empty text fails
   * with `IndexError`; a lone backquote becomes the empty text (`"`"[1:-1]`).
   */
  function UnquoteAsWritten(s: string): (r: Result<string, string>)
    ensures r.Failure? <==> s == []
    ensures r.Failure? ==> r.error == IndexOutOfRange
    ensures r.Success? && InlineQuoted(s) && |s| >= 2 ==> s == "`" + r.value + "`"
    ensures r.Success? && !InlineQuoted(s) ==> r.value == s
  {
    if '\n' !in s then
      if s == [] then Failure(IndexOutOfRange)
      else if s[0] == '`' && s[|s| - 1] == '`' then Success(if |s| >= 2 then s[1..|s| - 1] else "")
      else Success(s)
    else Success(s)
  }

  /** The corrected final step: the same unquoting, with the empty text returned as it is. */
  function Unquote(s: string): (r: string)
    ensures InlineQuoted(s) && |s| >= 2 ==> s == "`" + r + "`"
    ensures InlineQuoted(s) && |s| == 1 ==> r == ""
    ensures !InlineQuoted(s) ==> r == s
    ensures |r| <= |s|
  {
    if InlineQuoted(s) then (if |s| >= 2 then s[1..|s| - 1] else "") else s
  }

  /**
   * The corrected step never fails, and agrees with the step as written on
   * every text on which that one does not fail.
   */
  lemma UnquoteCorrectsAsWritten(s: string)
    ensures UnquoteAsWritten(s).Success? ==> UnquoteAsWritten(s).value == Unquote(s)
    ensures UnquoteAsWritten(s).Failure? ==> s == [] && Unquote(s) == []
  {
  }

  /** `_sanitize_multiline_bash_script` */
  method SanitizeMultilineBashScript(script: string) returns (r: string)
    ensures r == Extracted(script, BashOpeners)
  {
    r := SanitizeMultiline(script, BashOpeners);
  }

  /** `_sanitize_bash_script` as written. */
  method SanitizeBashScriptAsWritten(script: string) returns (r: Result<string, string>)
    ensures r == UnquoteAsWritten(Extracted(script, BashOpeners))
  {
    var extracted := SanitizeMultilineBashScript(script);
    if '\n' !in extracted {
      if extracted == [] {
        return Failure(IndexOutOfRange);
      }
      if extracted[0] == '`' && extracted[|extracted| - 1] == '`' {
        return Success(if |extracted| >= 2 then extracted[1..|extracted| - 1] else "");
      }
    }
    return Success(extracted);
  }

  /** `_sanitize_bash_script`, corrected so that an empty script is passed on unchanged. */
  method SanitizeBashScript(script: string) returns (r: string)
    ensures r == Unquote(Extracted(script, BashOpeners))
  {
    var extracted := SanitizeMultilineBashScript(script);
    r := Unquote(extracted);
  }

  /** A blank script makes the sanitiser as written fail. */
  lemma BlankScriptFailsAsWritten(script: string)
    requires forall k :: 0 <= k < |script| ==> IsSpace(script[k])
    ensures UnquoteAsWritten(Extracted(script, BashOpeners)).Failure?
    ensures Unquote(Extracted(script, BashOpeners)) == ""
  {
    StripEmptyIffBlank(script);
  }

  /** So does an empty "```bash" block. */
  lemma EmptyBlockFailsAsWritten()
    ensures UnquoteAsWritten(Extracted(Join(["```bash", Fence], "\n"), BashOpeners)).Failure?
  {
    var opener := "```bash";
    assert forall k :: 0 <= k < |opener| ==> opener[k] != '\n';
    FencedRoundTrip(opener, [], BashOpeners);
    assert [opener] + [] + [Fence] == [opener, Fence];
  }

  /**
   * A script sent as a "```bash" block gives back exactly the lines inside the
   * block, as long as none of them closes it and the block is not a single
   * backquoted line.
   */
  lemma BashBlockRoundTrip(body: seq<string>)
    requires forall i, k :: 0 <= i < |body| && 0 <= k < |body[i]| ==> body[i][k] != '\n'
    requires forall i :: 0 <= i < |body| ==> body[i] != Fence
    requires !InlineQuoted(Join(body, "\n"))
    ensures Unquote(Extracted(Join(["```bash"] + body + [Fence], "\n"), BashOpeners)) == Join(body, "\n")
  {
    var opener := "```bash";
    assert forall k :: 0 <= k < |opener| ==> opener[k] != '\n';
    FencedRoundTrip(opener, body, BashOpeners);
  }
}
