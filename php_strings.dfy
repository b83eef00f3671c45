/**
 * The PHP string built-ins the tracker's core relies on, on strings of
 * code points: trim, stripslashes (with its inverse addslashes),
 * htmlspecialchars (with its inverse), strtoupper and the `empty` test.
 */
module PhpStrings {
  import opened Wrappers

  // ---------------------------------------------------------------- trim

  /** The characters trim() strips when given no character list: " \t\n\r\0\x0B". */
  predicate IsTrimSpace(c: char) {
    c == ' ' || c == '\t' || c == '\n' || c == '\r' || c == '\0' || c == '\U{B}'
  }

  /** Number of trim characters at the start of `s`. */
  function LeadingSpaces(s: string): (n: nat)
    ensures n <= |s|
    ensures forall i :: 0 <= i < n ==> IsTrimSpace(s[i])
    ensures n == |s| || !IsTrimSpace(s[n])
  {
    if s != [] && IsTrimSpace(s[0]) then 1 + LeadingSpaces(s[1..]) else 0
  }

  /** rtrim: drop trim characters at the end. */
  function TrimRight(s: string): (r: string)
    ensures |r| <= |s| && r == s[..|r|]
    ensures r == [] || !IsTrimSpace(r[|r| - 1])
    ensures forall i :: |r| <= i < |s| ==> IsTrimSpace(s[i])
  {
    if s != [] && IsTrimSpace(s[|s| - 1]) then TrimRight(s[..|s| - 1]) else s
  }

  /**
   * trim(): the longest infix of `s` that neither starts nor ends with a
   * trim character; everything cut off on either side is a trim character.
   */
  function Trim(s: string): (r: string)
    ensures LeadingSpaces(s) + |r| <= |s|
    ensures r == s[LeadingSpaces(s)..LeadingSpaces(s) + |r|]
    ensures r == [] || (!IsTrimSpace(r[0]) && !IsTrimSpace(r[|r| - 1]))
    ensures forall i :: LeadingSpaces(s) + |r| <= i < |s| ==> IsTrimSpace(s[i])
  {
    var n := LeadingSpaces(s);
    var r := TrimRight(s[n..]);
    r
  }

  /** trim() leaves a string alone when it has no trim character at either end. */
  lemma TrimUnchanged(s: string)
    requires s == [] || (!IsTrimSpace(s[0]) && !IsTrimSpace(s[|s| - 1]))
    ensures Trim(s) == s
  {
    assert LeadingSpaces(s) == 0;
    assert TrimRight(s) == s;
  }

  // -------------------------------------------------------- stripslashes

  /**
   * stripslashes(): a backslash is dropped and the character after it kept,
   * except that backslash-zero becomes the NUL character; a lone backslash
   * at the very end disappears.
   */
  function StripSlashes(s: string): (r: string)
    ensures |r| <= |s|
  {
    if s == [] then []
    else if s[0] != '\\' then [s[0]] + StripSlashes(s[1..])
    else if |s| == 1 then []
    else [if s[1] == '0' then '\0' else s[1]] + StripSlashes(s[2..])
  }

  /** A string without backslashes passes through stripslashes() unchanged. */
  lemma {:induction false} StripSlashesUnchanged(s: string)
    requires forall i :: 0 <= i < |s| ==> s[i] != '\\'
    ensures StripSlashes(s) == s
  {
    if s != [] {
      StripSlashesUnchanged(s[1..]);
    }
  }

  /** What addslashes() writes for one character: a backslash before ', " and \, and \0 for NUL. */
  function SlashEscape(c: char): string {
    if c == '\0' then "\\0"
    else if c == '\'' || c == '"' || c == '\\' then ['\\', c]
    else [c]
  }

  /** addslashes(), the PHP inverse of stripslashes(). */
  function AddSlashes(s: string): (r: string)
    ensures |s| <= |r| <= 2 * |s|
  {
    if s == [] then [] else SlashEscape(s[0]) + AddSlashes(s[1..])
  }

  /** stripslashes() undoes addslashes() on every string. */
  lemma {:induction false} StripAddSlashes(s: string)
    ensures StripSlashes(AddSlashes(s)) == s
  {
    if s != [] {
      var e, rest := SlashEscape(s[0]), AddSlashes(s[1..]);
      assert AddSlashes(s) == e + rest;
      StripAddSlashes(s[1..]);
      if |e| == 1 {
        assert (e + rest)[1..] == rest;
      } else {
        assert (e + rest)[2..] == rest;
      }
    }
  }

  // ---------------------------------------------------- htmlspecialchars

  /** The five characters htmlspecialchars() replaces (ENT_QUOTES, the default since PHP 8.1). */
  predicate IsHtmlSpecial(c: char) {
    c == '&' || c == '"' || c == '\'' || c == '<' || c == '>'
  }

  function HtmlEscape(c: char): string {
    if c == '&' then "&amp;"
    else if c == '"' then "&quot;"
    else if c == '\'' then "&#039;"
    else if c == '<' then "&lt;"
    else if c == '>' then "&gt;"
    else [c]
  }

  /** htmlspecialchars(): no quote and no angle bracket survives escaping. */
  function HtmlSpecialChars(s: string): (r: string)
    ensures forall i :: 0 <= i < |r| ==> r[i] != '<' && r[i] != '>' && r[i] != '"' && r[i] != '\''
    ensures |s| <= |r|
  {
    if s == [] then [] else HtmlEscape(s[0]) + HtmlSpecialChars(s[1..])
  }

  /** Text with none of the five special characters passes through unchanged. */
  lemma {:induction false} HtmlSpecialCharsUnchanged(s: string)
    requires forall i :: 0 <= i < |s| ==> !IsHtmlSpecial(s[i])
    ensures HtmlSpecialChars(s) == s
  {
    if s != [] {
      HtmlSpecialCharsUnchanged(s[1..]);
    }
  }

  /** The inverse of htmlspecialchars(): replaces the five entities it writes by their characters. */
  function HtmlUnescape(s: string): string
  {
    if s == [] then []
    else if "&amp;" <= s then "&" + HtmlUnescape(s[5..])
    else if "&quot;" <= s then "\"" + HtmlUnescape(s[6..])
    else if "&#039;" <= s then "'" + HtmlUnescape(s[6..])
    else if "&lt;" <= s then "<" + HtmlUnescape(s[4..])
    else if "&gt;" <= s then ">" + HtmlUnescape(s[4..])
    else [s[0]] + HtmlUnescape(s[1..])
  }

  lemma HtmlUnescapeStep(c: char, rest: string)
    ensures HtmlUnescape(HtmlEscape(c) + rest) == [c] + HtmlUnescape(rest)
  {
    var e := HtmlEscape(c);
    var t := e + rest;
    assert t[..|e|] == e && t[|e|..] == rest;
    if !IsHtmlSpecial(c) {
      assert t[0] == c;
    } else if c != '&' {
      assert t[0] == '&' && t[1] == e[1];
    }
  }

  /** Escaping loses nothing: unescaping gives the original text back. */
  lemma {:induction false} HtmlRoundTrip(s: string)
    ensures HtmlUnescape(HtmlSpecialChars(s)) == s
  {
    if s != [] {
      HtmlUnescapeStep(s[0], HtmlSpecialChars(s[1..]));
      HtmlRoundTrip(s[1..]);
    }
  }

  // ------------------------------------------------------------ strtoupper

  /** strtoupper() on one character: ASCII letters only (locale-independent since PHP 8.2). */
  function UpperChar(c: char): char {
    if 'a' <= c <= 'z' then (c as int - 32) as char else c
  }

  function ToUpper(s: string): (r: string)
    ensures |r| == |s|
    ensures forall i :: 0 <= i < |s| ==> r[i] == UpperChar(s[i])
  {
    seq(|s|, i requires 0 <= i < |s| => UpperChar(s[i]))
  }

  /** Upper-casing a string with no lower-case ASCII letter changes nothing. */
  lemma ToUpperUnchanged(s: string)
    requires forall i :: 0 <= i < |s| ==> !('a' <= s[i] <= 'z')
    ensures ToUpper(s) == s
  {
  }

  // ----------------------------------------------------------------- empty

  /** PHP's empty() on a string parameter that may be absent (or JSON null): "" and "0" are empty too. */
  function IsEmptyValue(v: Option<string>): (empty: bool)
    ensures empty ==> v.None? || |v.value| <= 1
    ensures v.Some? && 2 <= |v.value| ==> !empty
    ensures v.None? || v == Some("") || v == Some("0") ==> empty
    ensures v.Some? && |v.value| == 1 && v.value != "0" ==> !empty
  {
    v.None? || v.value == "" || v.value == "0"
  }
}
