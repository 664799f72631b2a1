/** `wrapInMain` of the backends: the student's code is indented by one tab on
    every line and wrapped in a `main` declaration, followed by a call to
    `main` unless the tests are being run. The three Python revisions share one
    expression and the two JavaScript revisions another. */
module MainWrapper {
  import opened Harness
  import opened Text

  const PY_HEADER := "def main():\n"
  const PY_CALL := "\nmain()\n"
  const JS_HEADER := "function main() {\n"
  const JS_CLOSE := "\n}\n"
  const JS_CALL := "main()\n"

  function PythonWrapInMain(code: string, doChecks: bool): string {
    PY_HEADER + Indent(code) + (if !doChecks then PY_CALL else "")
  }

  function JavaScriptWrapInMain(code: string, doChecks: bool): string {
    JS_HEADER + Indent(code) + JS_CLOSE + (if !doChecks then JS_CALL else "")
  }

  predicate EndsWith(s: string, suffix: string) {
    |suffix| <= |s| && s[|s| - |suffix|..] == suffix
  }

  /** Recovers the code from a wrapped Python program, if it has that shape. */
  function PythonUnwrap(text: string, doChecks: bool): Option<string> {
    var tail := if !doChecks then PY_CALL else "";
    if StartsWith(text, PY_HEADER) && |PY_HEADER| + |tail| <= |text| && EndsWith(text, tail)
    then Some(Unindent(text[|PY_HEADER|..|text| - |tail|]))
    else None
  }

  /** Recovers the code from a wrapped JavaScript program, if it has that shape. */
  function JavaScriptUnwrap(text: string, doChecks: bool): Option<string> {
    var tail := JS_CLOSE + (if !doChecks then JS_CALL else "");
    if StartsWith(text, JS_HEADER) && |JS_HEADER| + |tail| <= |text| && EndsWith(text, tail)
    then Some(Unindent(text[|JS_HEADER|..|text| - |tail|]))
    else None
  }

  lemma Slices(h: string, body: string, t: string)
    ensures StartsWith(h + body + t, h) && EndsWith(h + body + t, t)
    ensures (h + body + t)[|h|..|h + body + t| - |t|] == body
  {
    var s := h + body + t;
    assert s[..|h|] == h;
    assert s[|s| - |t|..] == t;
    assert s[|h|..|s| - |t|] == body;
  }

  /** Stripping the wrapper and one tab per line gives the student's code back. */
  lemma PythonUnwrapWrap(code: string, doChecks: bool)
    ensures PythonUnwrap(PythonWrapInMain(code, doChecks), doChecks) == Some(code)
  {
    var tail := if !doChecks then PY_CALL else "";
    Slices(PY_HEADER, Indent(code), tail);
    UnindentIndent(code);
  }

  lemma JavaScriptUnwrapWrap(code: string, doChecks: bool)
    ensures JavaScriptUnwrap(JavaScriptWrapInMain(code, doChecks), doChecks) == Some(code)
  {
    var tail := JS_CLOSE + (if !doChecks then JS_CALL else "");
    assert JavaScriptWrapInMain(code, doChecks) == JS_HEADER + Indent(code) + tail;
    Slices(JS_HEADER, Indent(code), tail);
    UnindentIndent(code);
  }

  /** Splitting at a leading line that holds no separator. */
  lemma SplitLeadingLine(a: string, b: string)
    requires '\n' !in a
    ensures Split(a + ['\n'] + b, '\n') == [a] + Split(b, '\n')
  {
    SplitAround(a, '\n', b);
    SplitNoSep(a, '\n');
  }

  lemma SplitNewlineAtEnd(a: string)
    requires '\n' !in a
    ensures Split(a + ['\n'], '\n') == [a, ""]
  {
    assert a + ['\n'] == a + ['\n'] + "";
    SplitLeadingLine(a, "");
  }

  lemma SplitBodyThen(body: string, rest: string)
    ensures Split(body + ['\n'] + rest, '\n') == Split(body, '\n') + Split(rest, '\n')
  {
    SplitAround(body, '\n', rest);
  }

  /** Line by line, the wrapped Python program is the header, every line of the
      code behind one tab, and then `main()` and an empty last line when the
      program is only run. */
  lemma PythonWrapLines(code: string, doChecks: bool)
    ensures Split(PythonWrapInMain(code, doChecks), '\n') ==
      ["def main():"] + TabEach(Split(code, '\n')) + (if !doChecks then ["main()", ""] else [])
  {
    var head, call := "def main():", "main()";
    var body := Indent(code);
    IndentLines(code);
    assert PY_HEADER == head + ['\n'];
    if doChecks {
      assert PythonWrapInMain(code, doChecks) == head + ['\n'] + body;
      SplitLeadingLine(head, body);
    } else {
      assert PY_CALL == ['\n'] + (call + ['\n']);
      assert PythonWrapInMain(code, doChecks) == head + ['\n'] + (body + ['\n'] + (call + ['\n']));
      SplitNewlineAtEnd(call);
      SplitBodyThen(body, call + ['\n']);
      SplitLeadingLine(head, body + ['\n'] + (call + ['\n']));
    }
  }

  /** The shape of a JavaScript wrapper, over arbitrary texts. */
  lemma SplitJavaScriptShape(head: string, body: string, close: string, rest: string)
    requires '\n' !in head && '\n' !in close
    ensures Split(head + ['\n'] + (body + ['\n'] + (close + ['\n'] + rest)), '\n') ==
      [head] + Split(body, '\n') + [close] + Split(rest, '\n')
  {
    SplitLeadingLine(close, rest);
    SplitBodyThen(body, close + ['\n'] + rest);
    SplitLeadingLine(head, body + ['\n'] + (close + ['\n'] + rest));
  }

  /** Line by line, the wrapped JavaScript program is the opening line, every line
      of the code behind one tab, the closing brace, and `main()` when the program
      is only run, then an empty last line. */
  lemma JavaScriptWrapLines(code: string, doChecks: bool)
    ensures Split(JavaScriptWrapInMain(code, doChecks), '\n') ==
      ["function main() {"] + TabEach(Split(code, '\n')) + ["}"] + (if !doChecks then ["main()", ""] else [""])
  {
    var head, close, call := "function main() {", "}", "main()";
    var rest := if !doChecks then call + ['\n'] else "";
    IndentLines(code);
    assert JS_HEADER == head + ['\n'];
    assert JS_CLOSE + (if !doChecks then JS_CALL else "") == ['\n'] + (close + ['\n'] + rest);
    assert JavaScriptWrapInMain(code, doChecks) == head + ['\n'] + (Indent(code) + ['\n'] + (close + ['\n'] + rest));
    SplitJavaScriptShape(head, Indent(code), close, rest);
    if !doChecks {
      SplitNewlineAtEnd(call);
    }
  }
}
