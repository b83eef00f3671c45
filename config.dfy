/**
 * The helpers every endpoint shares: input sanitising, the tracking-number
 * format check and the JSON response envelope.
 */
module Config {
  import opened PhpStrings
  import opened Schema

  // ------------------------------------------------------------ sanitizeInput

  /** Text in which no markup can start: no `<` and no `>`. */
  predicate NoAngleBrackets(s: string) {
    forall i :: 0 <= i < |s| ==> s[i] != '<' && s[i] != '>'
  }

  /** sanitizeInput(): trim, then stripslashes, then htmlspecialchars. */
  function SanitizeInput(data: string): (r: string)
    ensures NoAngleBrackets(r)
  {
    HtmlSpecialChars(StripSlashes(Trim(data)))
  }

  /** Text with no trim character at either end, no backslash and none of the five HTML-special characters. */
  predicate PlainText(s: string) {
    && (s == [] || (!IsTrimSpace(s[0]) && !IsTrimSpace(s[|s| - 1])))
    && forall i :: 0 <= i < |s| ==> s[i] != '\\' && !IsHtmlSpecial(s[i])
  }

  /** Plain text comes out of sanitizeInput() unchanged. */
  lemma SanitizeKeepsPlainText(s: string)
    requires PlainText(s)
    ensures SanitizeInput(s) == s
  {
    TrimUnchanged(s);
    StripSlashesUnchanged(s);
    HtmlSpecialCharsUnchanged(s);
  }

  predicate IsAsciiDigit(c: char) {
    '0' <= c <= '9'
  }

  predicate IsAsciiAlphanumeric(c: char) {
    IsAsciiDigit(c) || 'a' <= c <= 'z' || 'A' <= c <= 'Z'
  }

  /** In particular every ASCII-alphanumeric string, so every well-formed tracking number, passes unchanged. */
  lemma SanitizeKeepsAlphanumeric(s: string)
    requires forall i :: 0 <= i < |s| ==> IsAsciiAlphanumeric(s[i])
    ensures SanitizeInput(s) == s
  {
    SanitizeKeepsPlainText(s);
  }

  /** The HTML escaping step loses nothing: unescaping gives back the trimmed, unslashed text. */
  lemma SanitizeIsReversibleEscape(s: string)
    ensures HtmlUnescape(SanitizeInput(s)) == StripSlashes(Trim(s))
  {
    HtmlRoundTrip(StripSlashes(Trim(s)));
  }

  lemma {:induction false} StripSlashesDropsFinalBackslash(s: string)
    requires forall i :: 0 <= i < |s| ==> s[i] != '\\'
    ensures StripSlashes(s + "\\") == s
  {
    if s != [] {
      assert (s + "\\")[1..] == s[1..] + "\\";
      StripSlashesDropsFinalBackslash(s[1..]);
    }
  }

  // --------------------------------------------------- validateTrackingNumber

  /** `MAX` followed by exactly nine ASCII digits and nothing else. */
  predicate HasTrackingShape(s: string) {
    |s| == 12 && s[..3] == "MAX" && forall i :: 3 <= i < 12 ==> IsAsciiDigit(s[i])
  }

  /** Where PCRE's `$` matches without the D modifier: at the end, or just before one final "\n". */
  predicate DollarMatchesAt(s: string, k: nat) {
    k == |s| || (k + 1 == |s| && s[k] == '\n')
  }

  /**
   * validateTrackingNumber() as written: the pattern `^MAX\d{9}$` against the
   * upper-cased text. Because of `$`, a single trailing "\n" is accepted too.
   */
  function ValidateTrackingNumber(trackingNumber: string): (ok: bool)
    ensures ok ==> 12 <= |trackingNumber| <= 13
  {
    var u := ToUpper(trackingNumber);
    && |u| >= 12
    && u[..3] == "MAX"
    && (forall i :: 3 <= i < 12 ==> IsAsciiDigit(u[i]))
    && DollarMatchesAt(u, 12)
  }

  /**
   * The format check the endpoints rely on, as intended: after upper-casing,
   * `MAX` followed by exactly nine ASCII digits (the pattern `^MAX\d{9}\z`).
   */
  function IsValidTrackingNumber(trackingNumber: string): (ok: bool)
    ensures ok <==> && |trackingNumber| == 12
                    && ToUpper(trackingNumber[..3]) == "MAX"
                    && forall i :: 3 <= i < 12 ==> IsAsciiDigit(trackingNumber[i])
  {
    var u := ToUpper(trackingNumber);
    if |trackingNumber| == 12 then
      assert u[..3] == ToUpper(trackingNumber[..3]);
      assert forall i :: 3 <= i < 12 ==> (IsAsciiDigit(u[i]) <==> IsAsciiDigit(trackingNumber[i]));
      HasTrackingShape(u)
    else
      HasTrackingShape(u)
  }

  /** A well-formed tracking number is twelve ASCII letters and digits. */
  lemma ValidNumberIsAlphanumeric(s: string)
    requires IsValidTrackingNumber(s)
    ensures |s| == 12 && forall i :: 0 <= i < |s| ==> IsAsciiAlphanumeric(s[i])
  {
    var u := ToUpper(s);
    forall i | 0 <= i < 3
      ensures IsAsciiAlphanumeric(s[i])
    {
      assert u[..3][i] == "MAX"[i];
      assert UpperChar(s[i]) == u[i];
    }
  }

  /** A well-formed tracking number is its own upper-case form. */
  lemma ValidNumberUpperCase(s: string)
    requires IsValidTrackingNumber(s) && s[..3] == "MAX"
    ensures ToUpper(s) == s
  {
    assert forall i :: 0 <= i < 3 ==> s[i] == "MAX"[i];
  }

  /** Lower-case input is accepted: both checks upper-case it first. */
  lemma LowerCaseAccepted()
    ensures ToUpper("max123456789") == "MAX123456789"
    ensures ValidateTrackingNumber("max123456789")
    ensures IsValidTrackingNumber("max123456789")
  {
    assert ToUpper("max123456789") == "MAX123456789";
  }

  /** On text that does not end in "\n" the written check and the intended one agree. */
  lemma ValidateAgreesWithoutFinalNewline(s: string)
    requires s == [] || s[|s| - 1] != '\n'
    ensures ValidateTrackingNumber(s) == IsValidTrackingNumber(s)
  {
    var u := ToUpper(s);
    if |u| == 13 {
      assert u[12] == UpperChar(s[12]);
    }
  }

  /**
   * The intended check is the stricter one: everything it accepts the written
   * check accepts, and the written check accepts beyond it only thirteen
   * characters ending in "\n" whose first twelve the intended check accepts.
   */
  lemma IntendedCheckIsStricter(s: string)
    ensures IsValidTrackingNumber(s) ==> ValidateTrackingNumber(s)
    ensures ValidateTrackingNumber(s) && !IsValidTrackingNumber(s) ==>
              |s| == 13 && s[12] == '\n' && IsValidTrackingNumber(s[..12])
  {
    var u := ToUpper(s);
    if ValidateTrackingNumber(s) && !IsValidTrackingNumber(s) {
      if |s| == 12 {
        assert false;
      }
      assert u[12] == UpperChar(s[12]);
      assert ToUpper(s[..12]) == u[..12];
      assert ToUpper(s[..12])[..3] == u[..3];
    }
  }

  /** After trim() the written check accepts only exactly `MAX` and nine digits. */
  lemma ValidateTrimmedShape(s: string)
    requires ValidateTrackingNumber(Trim(s))
    ensures |Trim(s)| == 12 && IsValidTrackingNumber(Trim(s))
  {
    ValidateAgreesWithoutFinalNewline(Trim(s));
  }

  /**
   * sanitizeInput() does not protect the check from the trailing "\n": in
   * "MAX123456789\n\" the backslash keeps trim() from removing the newline,
   * and stripslashes() then drops the backslash.
   */
  lemma SanitizedNumberWithFinalNewline()
    ensures SanitizeInput("MAX123456789\n\\") == "MAX123456789\n"
    ensures ToUpper(SanitizeInput("MAX123456789\n\\")) == "MAX123456789\n"
    ensures ValidateTrackingNumber(ToUpper(SanitizeInput("MAX123456789\n\\")))
    ensures !IsValidTrackingNumber(ToUpper(SanitizeInput("MAX123456789\n\\")))
  {
    var kept := "MAX123456789\n";
    assert kept + "\\" == "MAX123456789\n\\";
    assert forall i :: 0 <= i < |kept| ==> kept[i] != '\\' && !IsHtmlSpecial(kept[i]) && !('a' <= kept[i] <= 'z');
    SanitizeDropsFinalBackslash(kept);
    ToUpperUnchanged(kept);
    NewlineSuffixAccepted();
  }

  lemma SanitizeDropsFinalBackslash(kept: string)
    requires kept != [] && !IsTrimSpace(kept[0])
    requires forall i :: 0 <= i < |kept| ==> kept[i] != '\\' && !IsHtmlSpecial(kept[i])
    ensures SanitizeInput(kept + "\\") == kept
  {
    TrimUnchanged(kept + "\\");
    StripSlashesDropsFinalBackslash(kept);
    HtmlSpecialCharsUnchanged(kept);
  }

  lemma NewlineSuffixAccepted()
    ensures ValidateTrackingNumber("MAX123456789\n")
    ensures !IsValidTrackingNumber("MAX123456789\n")
  {
    var u := "MAX123456789\n";
    ToUpperUnchanged(u);
    assert u[..3] == "MAX";
  }

  // --------------------------------------------------------- sendResponse

  /** The JSON envelope every endpoint answers with, and the HTTP status it is sent with. */
  datatype Envelope = Envelope(code: int, success: bool, message: string, data: Payload)

  /** An answer: the bare 200 to a CORS preflight, or a JSON envelope. */
  datatype Reply = Preflight | Json(envelope: Envelope)

  /** sendResponse(): `success` is true exactly for the 2xx status codes. */
  function SendResponse(data: Payload, httpCode: int, message: string): (e: Envelope)
    ensures e.code == httpCode && e.message == message && e.data == data
    ensures e.success <==> 200 <= httpCode < 300
  {
    Envelope(httpCode, httpCode >= 200 && httpCode < 300, message, data)
  }

  /** The codes the endpoints use: 200 and 201 succeed, 400, 404, 409 and 500 do not. */
  lemma SuccessFlagOfUsedCodes(data: Payload, message: string)
    ensures SendResponse(data, 200, message).success && SendResponse(data, 201, message).success
    ensures !SendResponse(data, 400, message).success && !SendResponse(data, 404, message).success
    ensures !SendResponse(data, 409, message).success && !SendResponse(data, 500, message).success
  {
  }
}
