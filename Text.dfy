/** String helpers with JavaScript's meaning: `split` and `join` on a
    one-character separator, `startsWith`, and the leftmost removal of a
    " on line <digits>" marker that `printError` performs. */
module Text {

  /** `s.split(sep)` for a one-character separator. */
  function Split(s: string, sep: char): (parts: seq<string>)
    ensures |parts| >= 1
    ensures forall i :: 0 <= i < |parts| ==> sep !in parts[i]
    decreases |s|
  {
    if s == [] then [""]
    else
      var rest := Split(s[1..], sep);
      if s[0] == sep then [""] + rest
      else [[s[0]] + rest[0]] + rest[1..]
  }

  /** `parts.join(sep)` for a one-character separator. */
  function Join(parts: seq<string>, sep: char): string {
    if |parts| == 0 then ""
    else if |parts| == 1 then parts[0]
    else parts[0] + [sep] + Join(parts[1..], sep)
  }

  predicate StartsWith(s: string, prefix: string) {
    |prefix| <= |s| && s[..|prefix|] == prefix
  }

  predicate NoSep(parts: seq<string>, sep: char) {
    forall i :: 0 <= i < |parts| ==> sep !in parts[i]
  }

  /** A text without the separator is one part. */
  lemma {:induction false} SplitNoSep(a: string, sep: char)
    requires sep !in a
    ensures Split(a, sep) == [a]
    decreases |a|
  {
    if a != [] {
      assert sep !in a[1..] by {
        forall c | c in a[1..] ensures c != sep { assert c in a; }
      }
      SplitNoSep(a[1..], sep);
      assert a[0] != sep by { assert a[0] in a; }
      assert [a[0]] + a[1..] == a;
    }
  }

  /** Splitting distributes over a separator. */
  lemma {:induction false} SplitAround(a: string, sep: char, b: string)
    ensures Split(a + [sep] + b, sep) == Split(a, sep) + Split(b, sep)
    decreases |a|
  {
    if a == [] {
      assert a + [sep] + b == [sep] + b;
      assert ([sep] + b)[1..] == b;
    } else {
      var s := a + [sep] + b;
      assert s[0] == a[0];
      assert s[1..] == a[1..] + [sep] + b;
      SplitAround(a[1..], sep, b);
    }
  }

  /** `join` undoes `split`. */
  lemma {:induction false} JoinSplit(s: string, sep: char)
    ensures Join(Split(s, sep), sep) == s
    decreases |s|
  {
    if s != [] {
      var rest := Split(s[1..], sep);
      JoinSplit(s[1..], sep);
      if s[0] == sep {
        assert ([""] + rest)[1..] == rest;
        if |rest| == 1 {
          assert Join([""] + rest, sep) == "" + [sep] + rest[0];
        }
      } else {
        var parts := [[s[0]] + rest[0]] + rest[1..];
        if |rest| == 1 {
          assert parts == [[s[0]] + rest[0]];
        } else {
          assert parts[1..] == rest[1..];
          assert Join(rest, sep) == rest[0] + [sep] + Join(rest[1..], sep);
        }
      }
    }
  }

  /** `split` undoes `join` of parts that hold no separator. */
  lemma {:induction false} SplitJoin(parts: seq<string>, sep: char)
    requires |parts| >= 1 && NoSep(parts, sep)
    ensures Split(Join(parts, sep), sep) == parts
    decreases |parts|
  {
    if |parts| == 1 {
      SplitNoSep(parts[0], sep);
    } else {
      SplitAround(parts[0], sep, Join(parts[1..], sep));
      SplitNoSep(parts[0], sep);
      SplitJoin(parts[1..], sep);
    }
  }

  // ---- indentation, as `code.split("\n").map(s => "\t" + s).join("\n")` ------

  function TabEach(lines: seq<string>): (r: seq<string>)
    ensures |r| == |lines|
    ensures forall i :: 0 <= i < |lines| ==> r[i] == "\t" + lines[i]
  {
    if lines == [] then [] else ["\t" + lines[0]] + TabEach(lines[1..])
  }

  /** Removes one leading tab from a line that has one. */
  function Untab(line: string): string {
    if |line| > 0 && line[0] == '\t' then line[1..] else line
  }

  function UntabEach(lines: seq<string>): (r: seq<string>)
    ensures |r| == |lines|
    ensures forall i :: 0 <= i < |lines| ==> r[i] == Untab(lines[i])
  {
    if lines == [] then [] else [Untab(lines[0])] + UntabEach(lines[1..])
  }

  function Indent(code: string): string {
    Join(TabEach(Split(code, '\n')), '\n')
  }

  /** Strips one leading tab from every line. */
  function Unindent(text: string): string {
    Join(UntabEach(Split(text, '\n')), '\n')
  }

  /** The lines of the indented text are the lines of the code, each with a tab in front. */
  lemma IndentLines(code: string)
    ensures Split(Indent(code), '\n') == TabEach(Split(code, '\n'))
  {
    var lines := TabEach(Split(code, '\n'));
    forall i | 0 <= i < |lines| ensures '\n' !in lines[i] {
      assert lines[i] == "\t" + Split(code, '\n')[i];
    }
    SplitJoin(lines, '\n');
  }

  /** Stripping the leading tabs recovers the code. */
  lemma UnindentIndent(code: string)
    ensures Unindent(Indent(code)) == code
  {
    IndentLines(code);
    var lines := Split(code, '\n');
    assert UntabEach(TabEach(lines)) == lines;
    JoinSplit(code, '\n');
  }

  // ---- the `/ on line \d+/` replacement of printError -----------------------

  const LINE_MARKER := " on line "

  predicate IsDigit(c: char) {
    '0' <= c <= '9'
  }

  /** Number of leading digits of s. */
  function DigitRun(s: string): (n: nat)
    ensures n <= |s|
    ensures forall i :: 0 <= i < n ==> IsDigit(s[i])
    ensures n < |s| ==> !IsDigit(s[n])
  {
    if s != [] && IsDigit(s[0]) then 1 + DigitRun(s[1..]) else 0
  }

  /** The pattern ` on line \d+` matches at index i of s. */
  predicate MatchAt(s: string, i: nat) {
    i + |LINE_MARKER| < |s| && s[i..i + |LINE_MARKER|] == LINE_MARKER && IsDigit(s[i + |LINE_MARKER|])
  }

  /** `s.replace(/ on line \d+/, "")`: removes the leftmost match, itself as
      long as the digits go. */
  function StripLineNumber(s: string): (r: string)
    decreases |s|
  {
    if |s| <= |LINE_MARKER| then s
    else if MatchAt(s, 0) then s[|LINE_MARKER| + DigitRun(s[|LINE_MARKER|..])..]
    else [s[0]] + StripLineNumber(s[1..])
  }

  lemma MatchAtShift(s: string, i: nat)
    requires 0 < |s|
    ensures MatchAt(s, i + 1) <==> MatchAt(s[1..], i)
  {
    var n := |LINE_MARKER|;
    if i + 1 + n < |s| {
      var t := s[1..];
      var here, there := s[i + 1..i + 1 + n], t[i..i + n];
      forall k | 0 <= k < n ensures here[k] == there[k] {
        assert t[i + k] == s[i + 1 + k];
      }
      assert here == there;
      assert s[i + 1 + n] == t[i + n];
    }
  }

  /** Without a match the text is unchanged. */
  lemma {:induction false} StripWithoutMatch(s: string)
    requires forall i :: 0 <= i < |s| ==> !MatchAt(s, i)
    ensures StripLineNumber(s) == s
    decreases |s|
  {
    if |s| > |LINE_MARKER| {
      forall i | 0 <= i < |s[1..]| ensures !MatchAt(s[1..], i) {
        MatchAtShift(s, i);
      }
      StripWithoutMatch(s[1..]);
    }
  }

  /** The leftmost marker and all the digits that follow it are removed, and
      nothing else: `prefix + " on line " + digits + rest` becomes `prefix + rest`
      when no match starts inside prefix and rest does not start with a digit. */
  lemma StripFirstMatch(prefix: string, digits: string, rest: string)
    requires |digits| >= 1 && forall i :: 0 <= i < |digits| ==> IsDigit(digits[i])
    requires rest == [] || !IsDigit(rest[0])
    requires forall i :: 0 <= i < |prefix| ==> !MatchAt(prefix + LINE_MARKER + digits + rest, i)
    ensures StripLineNumber(prefix + LINE_MARKER + digits + rest) == prefix + rest
  {
    var tail := LINE_MARKER + (digits + rest);
    Regroup(prefix, digits, rest);
    StripAcrossPrefix(prefix, tail);
    StripAtMarker(digits, rest);
  }

  lemma Regroup(prefix: string, digits: string, rest: string)
    ensures prefix + LINE_MARKER + digits + rest == prefix + (LINE_MARKER + (digits + rest))
  {
  }

  lemma ConsRegroup(prefix: string, x: string)
    requires prefix != []
    ensures [prefix[0]] + (prefix[1..] + x) == prefix + x
  {
    assert prefix == [prefix[0]] + prefix[1..];
  }

  /** A prefix in which no match starts is kept as it is. */
  lemma {:induction false} StripAcrossPrefix(prefix: string, tail: string)
    requires |tail| > |LINE_MARKER|
    requires forall i :: 0 <= i < |prefix| ==> !MatchAt(prefix + tail, i)
    ensures StripLineNumber(prefix + tail) == prefix + StripLineNumber(tail)
    decreases |prefix|
  {
    if prefix == [] {
      assert prefix + tail == tail;
    } else {
      NoMatchInTail(prefix, tail);
      StripAcrossPrefix(prefix[1..], tail);
      StripPastFirst(prefix, tail);
      ConsRegroup(prefix, StripLineNumber(tail));
    }
  }

  /** A text starting with the marker and digits loses both. */
  lemma StripAtMarker(digits: string, rest: string)
    requires |digits| >= 1 && forall i :: 0 <= i < |digits| ==> IsDigit(digits[i])
    requires rest == [] || !IsDigit(rest[0])
    ensures StripLineNumber(LINE_MARKER + (digits + rest)) == rest
  {
    var s := LINE_MARKER + (digits + rest);
    assert s[..|LINE_MARKER|] == LINE_MARKER;
    assert s[|LINE_MARKER|] == digits[0];
    assert MatchAt(s, 0);
    assert s[|LINE_MARKER|..] == digits + rest;
    DigitsThenRest(digits, rest);
    assert s[|LINE_MARKER| + |digits|..] == rest;
  }

  /** No match inside a prefix means no match inside the prefix's tail. */
  lemma NoMatchInTail(prefix: string, tail: string)
    requires prefix != []
    requires forall i :: 0 <= i < |prefix| ==> !MatchAt(prefix + tail, i)
    ensures forall i :: 0 <= i < |prefix[1..]| ==> !MatchAt(prefix[1..] + tail, i)
  {
    var s := prefix + tail;
    assert s[1..] == prefix[1..] + tail;
    forall i | 0 <= i < |prefix[1..]| ensures !MatchAt(prefix[1..] + tail, i) {
      MatchAtShift(s, i);
    }
  }

  /** Without a match at the first character, stripping keeps it and goes on. */
  lemma StripPastFirst(prefix: string, tail: string)
    requires prefix != [] && |tail| > |LINE_MARKER|
    requires !MatchAt(prefix + tail, 0)
    ensures StripLineNumber(prefix + tail) == [prefix[0]] + StripLineNumber(prefix[1..] + tail)
  {
    var s := prefix + tail;
    assert s[1..] == prefix[1..] + tail;
  }

  lemma {:induction false} DigitsThenRest(digits: string, rest: string)
    requires forall i :: 0 <= i < |digits| ==> IsDigit(digits[i])
    requires rest == [] || !IsDigit(rest[0])
    ensures DigitRun(digits + rest) == |digits|
    decreases |digits|
  {
    if digits == [] {
      assert digits + rest == rest;
    } else {
      assert (digits + rest)[1..] == digits[1..] + rest;
      DigitsThenRest(digits[1..], rest);
    }
  }
}
