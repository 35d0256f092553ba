/**
 * The script sanitiser of the Python REPL tool (`_sanitize_python_script` and
 * `_sanitize_multiline_python_script`, written twice, identically, in the tool
 * factory and in the helper module): pull the code out of a Markdown fence,
 * then drop one pair of backquotes around a multi-line script.
 */
module PythonRepl {
  import opened Strings
  import opened CodeFences

  /** The lines that open a Python code block. */
  const PythonOpeners: seq<string> := ["```python", Fence]

  /** A multi-line text wrapped in backquotes, which the sanitiser unquotes. */
  predicate Backquoted(s: string)
  {
    '\n' in s && s[0] == '`' && s[|s| - 1] == '`'
  }

  /** The final step of `_sanitize_python_script`: drop the surrounding backquotes of a `Backquoted` text. */
  function Unquote(s: string): (r: string)
    ensures Backquoted(s) ==> s == "`" + r + "`" && '\n' in r
    ensures !Backquoted(s) ==> r == s
  {
    if Backquoted(s) then
      assert |s| >= 3 by {
        var k :| 0 <= k < |s| && s[k] == '\n';
      }
      var r := s[1..|s| - 1];
      assert '\n' in r by {
        var k :| 0 <= k < |s| && s[k] == '\n';
        assert r[k - 1] == '\n';
      }
      r
    else s
  }

  /** `_sanitize_multiline_python_script` */
  method SanitizeMultilinePythonScript(script: string) returns (r: string)
    ensures r == Extracted(script, PythonOpeners)
  {
    r := SanitizeMultiline(script, PythonOpeners);
  }

  /** `_sanitize_python_script` */
  method SanitizePythonScript(script: string) returns (r: string)
    ensures r == Unquote(Extracted(script, PythonOpeners))
  {
    var extracted := SanitizeMultilinePythonScript(script);
    r := Unquote(extracted);
  }

  /**
   * A script sent as a "```python" block gives back exactly the lines inside
   * the block, as long as none of them closes it and the block is not itself
   * a backquoted multi-line text.
   */
  lemma PythonBlockRoundTrip(body: seq<string>)
    requires forall i, k :: 0 <= i < |body| && 0 <= k < |body[i]| ==> body[i][k] != '\n'
    requires forall i :: 0 <= i < |body| ==> body[i] != Fence
    requires !Backquoted(Join(body, "\n"))
    ensures Unquote(Extracted(Join(["```python"] + body + [Fence], "\n"), PythonOpeners)) == Join(body, "\n")
  {
    var opener := "```python";
    assert forall k :: 0 <= k < |opener| ==> opener[k] != '\n';
    FencedRoundTrip(opener, body, PythonOpeners);
  }
}
