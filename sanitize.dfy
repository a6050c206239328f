/**
 * The path sanitizer of index.js (`sanitize`, lines 19-22).
 *
 * `sanitize` puts a backslash in front of every double quote, single quote and
 * backslash of a referenced file path, so that the result can be embedded in the
 * single-quoted literal of a `require('...')` call, and then prefixes `./` unless
 * the escaped text already starts with `.`.  Line breaks are not escaped, so a
 * path holding one does not give a valid literal body.  The regular expression replace is
 * modelled here character by character.
 */
module PathSanitizer {
  import opened Wrappers

  /** The three characters matched by the escaping expression `/(["\\'])/g`. */
  predicate IsQuoting(c: char) {
    c == '"' || c == '\'' || c == '\\'
  }

  /** The number of quoting characters in `s`: one backslash is inserted for each. */
  function QuotingCount(s: string): nat {
    if s == [] then 0 else (if IsQuoting(s[0]) then 1 else 0) + QuotingCount(s[1..])
  }

  /** The text a single character becomes under the escaping replace. */
  function EscapeChar(c: char): string {
    if IsQuoting(c) then ['\\', c] else [c]
  }

  /** The global replace of line 20: each character in turn, escaped when it is quoting. */
  function Escape(s: string): (r: string)
    ensures |r| == |s| + QuotingCount(s)
    ensures |s| > 0 ==> |r| > 0 && (r[0] == '.' <==> s[0] == '.')
  {
    if s == [] then [] else EscapeChar(s[0]) + Escape(s[1..])
  }

  /**
   * `sanitize` (lines 19-22): escape, then prefix `./` unless the first character
   * of the escaped text is `.` (for the empty string `charAt(0)` is "", so it
   * gets the prefix too).
   */
  function Sanitize(s: string): (r: string)
    ensures |r| > 0 && r[0] == '.'
  {
    var escaped := Escape(s);
    if |escaped| > 0 && escaped[0] == '.' then escaped else "./" + escaped
  }

  /** Whether `sanitize` adds the `./` prefix, decided on the unescaped input. */
  predicate GetsPrefix(s: string) {
    s == [] || s[0] != '.'
  }

  /**
   * Reading back the escapes that `sanitize` inserts: a backslash followed by a
   * quoting character stands for that character, and any other use of a quoting
   * character (a bare quote, a dangling backslash) is rejected.  Other
   * characters, line breaks included, stand for themselves.
   */
  function Unescape(t: string): (r: Option<string>)
    decreases |t|
  {
    if t == [] then Some([])
    else if t[0] == '\\' then
      if |t| >= 2 && IsQuoting(t[1]) then
        match Unescape(t[2..])
        case Some(rest) => Some([t[1]] + rest)
        case None => None
      else None
    else if IsQuoting(t[0]) then None
    else
      match Unescape(t[1..])
      case Some(rest) => Some([t[0]] + rest)
      case None => None
  }

  /** Escaping is undone by reading the text back: no character is lost, added or reordered. */
  lemma {:induction false} UnescapeEscape(s: string)
    ensures Unescape(Escape(s)) == Some(s)
  {
    if s != [] {
      var c, rest := s[0], s[1..];
      UnescapeEscape(rest);
      var t := Escape(s);
      if IsQuoting(c) {
        assert t == ['\\', c] + Escape(rest);
        assert t[2..] == Escape(rest);
        assert [c] + rest == s;
      } else {
        assert t == [c] + Escape(rest);
        assert t[1..] == Escape(rest);
        assert [c] + rest == s;
      }
    }
  }

  /** Conversely, text that reads back to `s` is exactly the escaping of `s`. */
  lemma {:induction false} EscapeUnescape(t: string, s: string)
    requires Unescape(t) == Some(s)
    ensures Escape(s) == t
    decreases |t|
  {
    if t != [] {
      if t[0] == '\\' {
        var rest := Unescape(t[2..]).value;
        EscapeUnescape(t[2..], rest);
        assert s == [t[1]] + rest;
        assert s[1..] == rest;
        assert t == ['\\', t[1]] + t[2..];
      } else {
        var rest := Unescape(t[1..]).value;
        EscapeUnescape(t[1..], rest);
        assert s == [t[0]] + rest;
        assert s[1..] == rest;
        assert t == [t[0]] + t[1..];
      }
    }
  }

  /** Escaping and reading back are inverse to each other, in both directions. */
  lemma EscapeIff(s: string, t: string)
    ensures Escape(s) == t <==> Unescape(t) == Some(s)
  {
    UnescapeEscape(s);
    if Unescape(t) == Some(s) {
      EscapeUnescape(t, s);
    }
  }

  /**
   * The prefix rule of line 21 stated on the input: an input starting with `.`
   * gets no prefix, any other input (the empty one included) gets `./`.
   */
  lemma SanitizePrefix(s: string)
    ensures GetsPrefix(s) ==> Sanitize(s) == "./" + Escape(s)
    ensures !GetsPrefix(s) ==> Sanitize(s) == Escape(s)
  {
  }

  /**
   * Dropping the prefix (when one was added) and the inserted backslashes from
   * the sanitized path gives back the original path.
   */
  lemma SanitizeRoundTrip(s: string)
    ensures var t := Sanitize(s);
            Unescape(if GetsPrefix(s) then t[2..] else t) == Some(s)
  {
    SanitizePrefix(s);
    UnescapeEscape(s);
    if GetsPrefix(s) {
      assert Sanitize(s)[2..] == Escape(s);
    }
  }

  /** The line terminators a JavaScript string literal may not hold unescaped. */
  predicate IsLineBreak(c: char) {
    c == '\n' || c == '\r'
  }

  /** `s` holds no line feed and no carriage return. */
  predicate NoLineBreak(s: string) {
    forall i :: 0 <= i < |s| ==> !IsLineBreak(s[i])
  }

  /**
   * Text that can stand between the quotes of a single-quoted literal and reads
   * back through `Unescape`: no bare quote, no dangling backslash, no raw line
   * break.
   */
  predicate IsLiteralBody(t: string) {
    Unescape(t).Some? && NoLineBreak(t)
  }

  /** A concatenation has no line break exactly when neither part has one. */
  lemma NoLineBreakConcat(a: string, b: string)
    ensures NoLineBreak(a + b) <==> NoLineBreak(a) && NoLineBreak(b)
  {
    var t := a + b;
    assert forall i :: 0 <= i < |a| ==> a[i] == t[i];
    assert forall i :: 0 <= i < |b| ==> b[i] == t[|a| + i];
  }

  /** Escaping neither adds nor removes line breaks. */
  lemma {:induction false} EscapeLineBreaks(s: string)
    ensures NoLineBreak(Escape(s)) <==> NoLineBreak(s)
  {
    if s != [] {
      EscapeLineBreaks(s[1..]);
      NoLineBreakConcat(EscapeChar(s[0]), Escape(s[1..]));
      NoLineBreakConcat([s[0]], s[1..]);
      assert [s[0]] + s[1..] == s;
    }
  }

  /** Sanitizing neither adds nor removes line breaks. */
  lemma SanitizeLineBreaks(s: string)
    ensures NoLineBreak(Sanitize(s)) <==> NoLineBreak(s)
  {
    SanitizePrefix(s);
    EscapeLineBreaks(s);
    NoLineBreakConcat("./", Escape(s));
    assert NoLineBreak("./");
  }

  /**
   * The sanitized path never leaves a quote bare or a backslash dangling.  It can
   * stand in the `'...'` literal of line 82 exactly when the path has no line
   * break: a line feed or carriage return is copied through unescaped.
   */
  lemma SanitizeIsQuotingSafe(s: string)
    ensures Unescape(Sanitize(s)).Some?
    ensures IsLiteralBody(Sanitize(s)) <==> NoLineBreak(s)
  {
    SanitizePrefix(s);
    UnescapeEscape(s);
    if GetsPrefix(s) {
      var e := Escape(s);
      var t := "./" + e;
      assert t[1..] == "/" + e;
      assert t[1..][1..] == e;
    }
    SanitizeLineBreaks(s);
  }

  /** Worked example: a line feed in a path survives sanitizing, so no literal body results. */
  lemma SanitizeLineBreakExample()
    ensures Sanitize("a\nb") == "./a\nb"
    ensures !IsLiteralBody(Sanitize("a\nb"))
  {
    var s := "a\nb";
    assert forall i :: 0 <= i < |s| ==> !IsQuoting(s[i]) by {
      assert s == ['a', '\n', 'b'];
    }
    SanitizeQuoteFree(s);
    assert Sanitize(s)[3] == '\n';
  }

  /** A path without quoting characters is left as it is by the escaping step. */
  lemma {:induction false} EscapeQuoteFree(s: string)
    requires forall i :: 0 <= i < |s| ==> !IsQuoting(s[i])
    ensures Escape(s) == s
  {
    if s != [] {
      EscapeQuoteFree(s[1..]);
      assert [s[0]] + s[1..] == s;
    }
  }

  /** Worked example: a single quote inside a bare path. */
  lemma SanitizeQuoteExample()
    ensures Sanitize("a'b") == "./a\\'b"
  {
    assert "'b"[1..] == "b";
    assert "a'b"[1..] == "'b";
    EscapeQuoteFree("b");
  }

  /** A path without quoting characters is only given the prefix rule. */
  lemma SanitizeQuoteFree(s: string)
    requires forall i :: 0 <= i < |s| ==> !IsQuoting(s[i])
    ensures Sanitize(s) == if GetsPrefix(s) then "./" + s else s
  {
    EscapeQuoteFree(s);
  }

  /** Worked example: an already relative path gets no prefix. */
  lemma SanitizeRelativeExample()
    ensures Sanitize("./x") == "./x"
  {
    var s := "./x";
    assert forall i :: 0 <= i < |s| ==> !IsQuoting(s[i]) by {
      assert s == ['.', '/', 'x'];
    }
    SanitizeQuoteFree(s);
  }

  /** Worked example: a bare path gets the `./` prefix. */
  lemma SanitizeBareExample()
    ensures Sanitize("rel/path") == "./rel/path"
  {
    var s := "rel/path";
    assert forall i :: 0 <= i < |s| ==> !IsQuoting(s[i]) by {
      assert s == ['r', 'e', 'l', '/', 'p', 'a', 't', 'h'];
    }
    SanitizeQuoteFree(s);
  }

  /** Worked example: the empty path becomes `./`. */
  lemma SanitizeEmptyExample()
    ensures Sanitize("") == "./"
  {
  }
}
