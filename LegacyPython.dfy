/** The first Python runner, src/app/Python.ts: `runCode`'s error mapping,
    `doChecks`, which calls one Python function on a list of argument lists and
    stops at the first test that throws, the rewrite of Skulpt's "Cannot read
    property" message into a Python NameError, and `jsVariableToPython`. */
module LegacyPython {
  import opened Harness
  import opened Text

  // ---- runCode ---------------------------------------------------------------

  /** What `runCode` reads of a rejected Skulpt run: its `tp$name` and its
      `toString()`. */
  datatype SkulptError = SkulptError(typeName: string, text: string)

  /** The text handed to `handleError`: a time-out has a fixed explanation, any
      other error its own `toString()`. */
  function ErrorText(err: SkulptError): (m: string)
    ensures err.typeName == TIME_LIMIT_ERROR ==> m == TIMEOUT_MESSAGE
    ensures err.typeName != TIME_LIMIT_ERROR ==> m == err.text
  {
    if err.typeName == TIME_LIMIT_ERROR then TIMEOUT_MESSAGE else err.text
  }

  /** Which callback `runCode` calls when the run settles: `None` for
      `handleSuccess()`, `Some(m)` for `handleError(m)`. */
  function Completion(ending: Option<SkulptError>): (r: Option<string>)
    ensures r.None? <==> ending.None?
    ensures ending.Some? ==> r == Some(ErrorText(ending.value))
  {
    match ending
    case None => None
    case Some(err) => Some(ErrorText(err))
  }

  // ---- jsVariableToPython ------------------------------------------------------

  /** A test argument as the JavaScript side holds it. Numbers are taken to be
      integers. */
  datatype JsValue = JsNumber(n: int) | JsString(s: string) | JsBoolean(b: bool) | JsOther(tag: string)

  /** The Skulpt object built for an argument: an `int_`, a `str`, a `bool`, or
      the bare wrapper `{v: v}` for anything else. */
  datatype PyArg = PyInt(n: int) | PyStr(s: string) | PyBool(b: bool) | Wrapped(v: JsValue)

  function JsVariableToPython(v: JsValue): (p: PyArg)
    ensures v.JsNumber? <==> p.PyInt?
    ensures v.JsString? <==> p.PyStr?
    ensures v.JsBoolean? <==> p.PyBool?
    ensures v.JsOther? <==> p.Wrapped?
  {
    match v
    case JsNumber(n) => PyInt(n)
    case JsString(s) => PyStr(s)
    case JsBoolean(b) => PyBool(b)
    case JsOther(_) => Wrapped(v)
  }

  /** The conversion loses nothing: distinct test arguments reach the Python
      function as distinct objects. */
  lemma ConversionInjective(v: JsValue, w: JsValue)
    ensures JsVariableToPython(v) == JsVariableToPython(w) ==> v == w
  {
  }

  /** `tests[i].map(jsVariableToPython)` */
  function ConvertAll(args: seq<JsValue>): (ps: seq<PyArg>)
    ensures |ps| == |args|
    ensures forall i :: 0 <= i < |args| ==> ps[i] == JsVariableToPython(args[i])
  {
    if args == [] then [] else [JsVariableToPython(args[0])] + ConvertAll(args[1..])
  }

  // ---- the error rewrite ---------------------------------------------------------

  /** "ExternalError: TypeError: Cannot read property " */
  const PROPERTY_ERROR_PREFIX := "ExternalError: " + "TypeError: " + "Cannot read " + "property "
  const NAME_ERROR_OPENING := "NameError: name '"
  const NAME_ERROR_LINE := "' is not defined on line "

  /** The second `'`-separated piece, which JavaScript prints as "undefined"
      when the text holds no `'`. */
  function SecondQuoted(s: string): string {
    var pieces := Split(s, '\'');
    if |pieces| > 1 then pieces[1] else "undefined"
  }

  /** `s.split(' ').pop()` */
  function LastWord(s: string): string {
    var words := Split(s, ' ');
    words[|words| - 1]
  }

  /** The message `doChecks` reports for a test that threw: Skulpt's
      "Cannot read property" text becomes a NameError naming the quoted
      property and the line, any other text is kept. */
  function RewriteError(message: string): (r: string)
    ensures !StartsWith(message, PROPERTY_ERROR_PREFIX) ==> r == message
    ensures StartsWith(message, PROPERTY_ERROR_PREFIX) ==> StartsWith(r, NAME_ERROR_OPENING)
  {
    if StartsWith(message, PROPERTY_ERROR_PREFIX) then
      NAME_ERROR_OPENING + SecondQuoted(message) + NAME_ERROR_LINE + LastWord(message)
    else message
  }

  /** The prefix holds no `'`, so the first quoted piece comes after it. */
  lemma PrefixHasNoQuote()
    ensures '\'' !in PROPERTY_ERROR_PREFIX
  {
    assert '\'' !in "ExternalError: ";
    assert '\'' !in "TypeError: ";
    assert '\'' !in "Cannot read ";
    assert '\'' !in "property ";
  }

  lemma QuotedAfter(front: string, name: string, after: string)
    requires '\'' !in front && '\'' !in name
    ensures SecondQuoted(front + ['\''] + name + ['\''] + after) == name
  {
    assert front + ['\''] + name + ['\''] + after == front + ['\''] + (name + ['\''] + after);
    SplitAround(front, '\'', name + ['\''] + after);
    SplitNoSep(front, '\'');
    SplitAround(name, '\'', after);
    SplitNoSep(name, '\'');
  }

  lemma LastWordAfter(front: string, line: string)
    requires ' ' !in line
    ensures LastWord(front + [' '] + line) == line
  {
    SplitAround(front, ' ', line);
    SplitNoSep(line, ' ');
  }

  lemma StartsWithPrefix(p: string, tail: string)
    ensures StartsWith(p + tail, p)
  {
    assert (p + tail)[..|p|] == p;
  }

  /** On Skulpt's message `... property 'name' <anything> line`, the rewrite
      names exactly the quoted property and the last word of the message. */
  lemma RewriteNamesProperty(name: string, middle: string, line: string)
    requires '\'' !in name && ' ' !in line
    ensures RewriteError(PROPERTY_ERROR_PREFIX + "'" + name + "'" + middle + " " + line)
         == "NameError: name '" + name + "' is not defined on line " + line
  {
    var message := PROPERTY_ERROR_PREFIX + "'" + name + "'" + middle + " " + line;
    var quoted := PROPERTY_ERROR_PREFIX + ['\''] + name + ['\''] + (middle + " " + line);
    assert message == quoted;
    StartsWithPrefix(PROPERTY_ERROR_PREFIX, "'" + name + "'" + middle + " " + line);
    assert message == PROPERTY_ERROR_PREFIX + ("'" + name + "'" + middle + " " + line);
    PrefixHasNoQuote();
    QuotedAfter(PROPERTY_ERROR_PREFIX, name, middle + " " + line);
    var front := PROPERTY_ERROR_PREFIX + "'" + name + "'" + middle;
    assert message == front + [' '] + line;
    LastWordAfter(front, line);
  }

  lemma NoQuoteIn(a: string, b: string)
    requires '\'' !in a && '\'' !in b
    ensures '\'' !in a + b
  {
  }

  lemma NoQuoteSecondPiece(s: string)
    requires '\'' !in s
    ensures SecondQuoted(s) == "undefined"
  {
    SplitNoSep(s, '\'');
  }

  /** Without any `'` after the prefix, the rewrite names "undefined". */
  lemma RewriteWithoutQuote(tail: string, line: string)
    requires '\'' !in tail && '\'' !in line && ' ' !in line
    ensures RewriteError(PROPERTY_ERROR_PREFIX + tail + " " + line)
         == NAME_ERROR_OPENING + "undefined" + NAME_ERROR_LINE + line
  {
    var message := PROPERTY_ERROR_PREFIX + tail + " " + line;
    var rest := tail + " " + line;
    assert message == PROPERTY_ERROR_PREFIX + rest;
    StartsWithPrefix(PROPERTY_ERROR_PREFIX, rest);
    PrefixHasNoQuote();
    NoQuoteIn(" ", line);
    NoQuoteIn(tail, " " + line);
    assert rest == tail + (" " + line);
    NoQuoteIn(PROPERTY_ERROR_PREFIX, rest);
    NoQuoteSecondPiece(PROPERTY_ERROR_PREFIX + rest);
    var front := PROPERTY_ERROR_PREFIX + tail;
    assert message == front + [' '] + line;
    LastWordAfter(front, line);
  }

  // ---- doChecks --------------------------------------------------------------------

  /** A Python function as `tp$call` sees it: it returns an object whose `.v`
      is the result, or throws an error whose `toString()` is given. */
  type PyFunction<V> = seq<PyArg> -> Result<V, string>

  function Call<V>(f: PyFunction<V>, test: seq<JsValue>): Result<V, string> {
    f(ConvertAll(test))
  }

  /** `{success, message?, results?}` */
  datatype CheckReport<V> = CheckReport(success: bool, message: Option<string>, results: Option<seq<V>>)

  /** The fixed text reported when the function is missing, whatever its name. */
  const MISSING_FUNCTION_MESSAGE := "Can't find a function called \"square\"!"

  /** Run every test in order. All pass: the results, one per test and in
      order. One throws: its rewritten message, and no later test is run. */
  method DoChecks<V>(functionName: string, globals: map<string, PyFunction<V>>, tests: seq<seq<JsValue>>)
    returns (report: CheckReport<V>, ghost ran: nat)
    ensures functionName !in globals ==> report == CheckReport(false, Some(MISSING_FUNCTION_MESSAGE), None)
    ensures functionName in globals ==>
      (report.success <==> forall i :: 0 <= i < |tests| ==> Call(globals[functionName], tests[i]).Ok?)
    ensures report.success ==>
      report.message.None? && report.results.Some? && |report.results.value| == |tests| == ran
      && forall i :: 0 <= i < |tests| ==> Call(globals[functionName], tests[i]) == Ok(report.results.value[i])
    ensures functionName in globals && !report.success ==>
      report.results.None? && 0 < ran <= |tests|
      && (forall j :: 0 <= j < ran - 1 ==> Call(globals[functionName], tests[j]).Ok?)
      && Call(globals[functionName], tests[ran - 1]).Err?
      && report.message == Some(RewriteError(Call(globals[functionName], tests[ran - 1]).error))
  {
    if functionName !in globals {
      return CheckReport(false, Some(MISSING_FUNCTION_MESSAGE), None), 0;
    }
    var func := globals[functionName];
    var results: seq<V> := [];
    for i := 0 to |tests|
      invariant |results| == i
      invariant forall j :: 0 <= j < i ==> Call(func, tests[j]) == Ok(results[j])
    {
      var result := func(ConvertAll(tests[i]));
      if result.Err? {
        return CheckReport(false, Some(RewriteError(result.error)), None), i + 1;
      }
      results := results + [result.value];
    }
    report, ran := CheckReport(true, None, Some(results)), |tests|;
  }
}
