/**
 * The tracking page's script: normalise the entered number before sending
 * it, turn the endpoint's answer into what the page shows, and colour the
 * status badge (a gradient from the status colour to a darker shade of it).
 */
module Client {
  import opened Wrappers
  import opened Schema
  import opened Config
  import opened Store
  import PhpStrings
  import Track

  // -------------------------------------------------------------- trim()

  /** The characters String.prototype.trim() removes: white space and line terminators. */
  predicate IsJsSpace(c: char) {
    || c == '\t' || c == '\n' || c == '\U{B}' || c == '\U{C}' || c == '\r' || c == ' '
    || c == '\U{A0}' || c == '\U{1680}' || ('\U{2000}' <= c <= '\U{200A}') || c == '\U{2028}' || c == '\U{2029}'
    || c == '\U{202F}' || c == '\U{205F}' || c == '\U{3000}' || c == '\U{FEFF}'
  }

  /** Where the text starts: the number of white-space characters in front. */
  function TextStart(s: string): (n: nat)
    ensures n <= |s|
    ensures forall i :: 0 <= i < n ==> IsJsSpace(s[i])
    ensures n == |s| || !IsJsSpace(s[n])
  {
    if s != [] && IsJsSpace(s[0]) then 1 + TextStart(s[1..]) else 0
  }

  /** Where the text ends: everything from here on is white space. */
  function TextEnd(s: string): (n: nat)
    ensures n <= |s|
    ensures forall i :: n <= i < |s| ==> IsJsSpace(s[i])
    ensures n == 0 || !IsJsSpace(s[n - 1])
  {
    if s != [] && IsJsSpace(s[|s| - 1]) then TextEnd(s[..|s| - 1]) else |s|
  }

  /**
   * trim(): the part of `s` between its leading and trailing white space;
   * empty exactly when `s` is all white space.
   */
  function JsTrim(s: string): (r: string)
    ensures r == [] <==> forall i :: 0 <= i < |s| ==> IsJsSpace(s[i])
    ensures r != [] ==> r == s[TextStart(s)..TextEnd(s)] && !IsJsSpace(r[0]) && !IsJsSpace(r[|r| - 1])
  {
    var start, end := TextStart(s), TextEnd(s);
    if start < end then
      assert !IsJsSpace(s[start]);
      s[start..end]
    else
      assert start == |s|;
      []
  }

  // --------------------------------------------------- the submit handler

  const MsgEnterNumber := "Please enter a tracking number"

  /** What submitting the form does: show an error, or send the normalised number. */
  datatype Submission = Refused(message: string) | Sent(trackingNumber: string)

  /**
   * The submit handler: trim, upper-case, and refuse an empty result
   * without sending anything. JavaScript treats only "" as false here, so
   * "0" is sent.
   */
  function OnSubmit(entered: string): (r: Submission)
    ensures r.Refused? <==> forall i :: 0 <= i < |entered| ==> IsJsSpace(entered[i])
    ensures r.Refused? ==> r.message == MsgEnterNumber
    ensures r.Sent? ==> r.trackingNumber == PhpStrings.ToUpper(JsTrim(entered))
  {
    var trackingNumber := PhpStrings.ToUpper(JsTrim(entered));
    if trackingNumber == "" then Refused(MsgEnterNumber) else Sent(trackingNumber)
  }

  /** Upper-casing never turns a character into white space or out of it. */
  lemma UpperKeepsSpaces(c: char)
    ensures IsJsSpace(PhpStrings.UpperChar(c)) <==> IsJsSpace(c)
  {
  }

  /** What is sent is never empty, has no white space at either end and no lower-case ASCII letter. */
  lemma SentIsNormalised(entered: string)
    requires OnSubmit(entered).Sent?
    ensures var sent := OnSubmit(entered).trackingNumber;
      && |sent| > 0 && !IsJsSpace(sent[0]) && !IsJsSpace(sent[|sent| - 1])
      && forall i :: 0 <= i < |sent| ==> !('a' <= sent[i] <= 'z')
  {
    var trimmed := JsTrim(entered);
    var sent := OnSubmit(entered).trackingNumber;
    UpperKeepsSpaces(trimmed[0]);
    UpperKeepsSpaces(trimmed[|trimmed| - 1]);
  }

  /** Submitting what was sent sends it again unchanged: the normalisation is idempotent. */
  lemma ResubmitSendsSame(entered: string)
    requires OnSubmit(entered).Sent?
    ensures OnSubmit(OnSubmit(entered).trackingNumber) == OnSubmit(entered)
  {
    var sent := OnSubmit(entered).trackingNumber;
    SentIsNormalised(entered);
    assert JsTrim(sent) == sent by {
      assert TextStart(sent) == 0;
      assert TextEnd(sent) == |sent|;
    }
    PhpStrings.ToUpperUnchanged(sent);
  }

  /** The request the page sends: a POST whose JSON body holds the number. */
  function RequestFor(trackingNumber: string, remoteAddr: Option<string>, userAgent: Option<string>): (r: Track.Request)
    ensures r.verb == "POST" && r.remoteAddr == remoteAddr && r.userAgent == userAgent
    ensures Track.RequestedNumber(r) == Some(SanitizeInput(trackingNumber))
  {
    Track.Request("POST", map[], Some(map["tracking_number" := trackingNumber]), remoteAddr, userAgent)
  }

  /** JavaScript counts only "" as false, so the page sends "0". */
  lemma ZeroIsSent()
    ensures OnSubmit("0") == Sent("0")
  {
    assert TextStart("0") == 0 && TextEnd("0") == 1;
    PhpStrings.ToUpperUnchanged("0");
  }

  /** PHP's empty() counts "0" as empty, so the endpoint refuses it as a missing number. */
  lemma ZeroIsRefused(shipments: seq<Shipment>, history: seq<HistoryRow>, storeFails: bool)
    ensures Track.TrackReply(RequestFor("0", None, None), shipments, history, storeFails)
         == Json(SendResponse(NoData, 400, Track.MsgRequired))
  {
    assert Track.RequestedNumber(RequestFor("0", None, None)) == Some("0") by {
      SanitizeKeepsAlphanumeric("0");
    }
  }

  /** The two tiers disagree about which input is empty: "0" passes the page and is refused by the endpoint. */
  lemma ZeroIsSentThenRefused(shipments: seq<Shipment>, history: seq<HistoryRow>, storeFails: bool)
    ensures OnSubmit("0").Sent?
    ensures Track.TrackReply(RequestFor(OnSubmit("0").trackingNumber, None, None), shipments, history, storeFails)
         == Json(SendResponse(NoData, 400, Track.MsgRequired))
  {
    ZeroIsSent();
    ZeroIsRefused(shipments, history, storeFails);
  }

  // ------------------------------------------------ the response branching

  const MsgFailed := "Failed to track shipment"
  const MsgNetwork := "Network error. Please check your connection and try again."

  /** What came back: nothing usable (fetch or JSON decoding threw), or a status and a decoded envelope. */
  datatype Outcome = NetworkFailure | Answered(status: int, body: Envelope)

  /** What the page shows. */
  datatype View = Results(trackingNumber: string, data: Payload) | NoResults | Error(message: string)

  /**
   * trackShipment(): a successful envelope shows the results; otherwise a 404
   * shows the no-results panel and any other status an error carrying the
   * server's message, or a default when that message is empty; a failed
   * request shows the network error.
   */
  function ViewOf(trackingNumber: string, outcome: Outcome): (v: View)
    ensures v.Results? <==> outcome.Answered? && outcome.body.success
    ensures v.NoResults? <==> outcome.Answered? && !outcome.body.success && outcome.status == 404
    ensures v.Error? ==> v.message != ""
    ensures v.Results? ==> v == Results(trackingNumber, outcome.body.data)
    ensures outcome.NetworkFailure? ==> v == Error(MsgNetwork)
    ensures outcome.Answered? && !outcome.body.success && outcome.status != 404 ==>
              v == Error(if outcome.body.message != "" then outcome.body.message else MsgFailed)
  {
    match outcome
    case NetworkFailure => Error(MsgNetwork)
    case Answered(status, body) =>
      if body.success then Results(trackingNumber, body.data)
      else if status == 404 then NoResults
      else Error(if body.message != "" then body.message else MsgFailed)
  }

  /**
   * What fetch() and response.json() make of a reply: sendResponse() sets the
   * status to the envelope's code; a preflight's body is empty, so decoding
   * it throws and the page takes the network-error path.
   */
  function Received(reply: Reply): (r: Outcome)
    ensures r.NetworkFailure? <==> reply.Preflight?
    ensures reply.Json? ==> r.status == reply.envelope.code && r.body == reply.envelope
  {
    match reply
    case Preflight => NetworkFailure
    case Json(envelope) => Answered(envelope.code, envelope)
  }

  /**
   * End to end: for the number the page sends, it shows the results exactly
   * when the endpoint answers 200, the no-results panel exactly when it
   * answers 404, and otherwise the endpoint's own message.
   */
  lemma PageShowsEndpointAnswer(trackingNumber: string, shipments: seq<Shipment>, history: seq<HistoryRow>,
                                storeFails: bool)
    ensures var reply := Track.TrackReply(RequestFor(trackingNumber, None, None), shipments, history, storeFails);
      && reply.Json?
      && var view := ViewOf(trackingNumber, Received(reply));
      && (view.Results? <==> reply.envelope.code == 200)
      && (view.NoResults? <==> reply.envelope.code == 404)
      && (view.Error? ==> view.message == reply.envelope.message)
  {
  }

  /** A sent number the store holds shows the results, whatever letter case was typed. */
  lemma StoredNumberShowsResults(entered: string, shipments: seq<Shipment>, history: seq<HistoryRow>, nextId: nat,
                                 k: nat)
    requires TablesValid(shipments, history, nextId) && k < |shipments|
    requires OnSubmit(entered).Sent?
    requires Track.AcceptedNumber(RequestFor(OnSubmit(entered).trackingNumber, None, None))
          == Some(shipments[k].trackingNumber)
    ensures var reply := Track.TrackReply(RequestFor(OnSubmit(entered).trackingNumber, None, None),
                                          shipments, history, false);
      ViewOf(OnSubmit(entered).trackingNumber, Received(reply)).Results?
  {
    Track.FoundNumberIs200(RequestFor(OnSubmit(entered).trackingNumber, None, None), shipments, history, nextId, k);
  }

  // ----------------------------------------------------- hex colours

  predicate IsHexDigit(c: char) {
    ('0' <= c <= '9') || ('a' <= c <= 'f') || ('A' <= c <= 'F')
  }

  predicate IsLowerHexDigit(c: char) {
    ('0' <= c <= '9') || ('a' <= c <= 'f')
  }

  function HexValue(c: char): (d: nat)
    requires IsHexDigit(c)
    ensures d < 16
  {
    if '0' <= c <= '9' then c as int - '0' as int
    else if 'a' <= c <= 'f' then c as int - 'a' as int + 10
    else c as int - 'A' as int + 10
  }

  /** The lower-case digit Number.prototype.toString(16) writes for a value below 16. */
  function HexChar(d: nat): (c: char)
    requires d < 16
    ensures IsLowerHexDigit(c) && HexValue(c) == d
  {
    if d < 10 then ('0' as int + d) as char else ('a' as int + d - 10) as char
  }

  lemma HexCharOfValue(c: char)
    requires IsLowerHexDigit(c)
    ensures HexChar(HexValue(c)) == c
  {
  }

  function Pow16(n: nat): (p: nat)
    ensures p >= 1
  {
    if n == 0 then 1 else 16 * Pow16(n - 1)
  }

  predicate AllHex(s: string) {
    forall i :: 0 <= i < |s| ==> IsHexDigit(s[i])
  }

  /** parseInt(s, 16) on a string of hex digits of either case. */
  function ParseHex(s: string): (n: nat)
    requires AllHex(s)
    ensures n < Pow16(|s|)
  {
    if s == [] then 0 else 16 * ParseHex(s[..|s| - 1]) + HexValue(s[|s| - 1])
  }

  /** n written as exactly `width` lower-case hex digits, leading zeros included. */
  function ToHex(n: nat, width: nat): (s: string)
    ensures |s| == width && forall i :: 0 <= i < width ==> IsLowerHexDigit(s[i])
  {
    if width == 0 then [] else ToHex(n / 16, width - 1) + [HexChar(n % 16)]
  }

  /** Reading back what ToHex wrote gives the number, when it fits. */
  lemma {:induction false} ParseToHex(n: nat, width: nat)
    requires n < Pow16(width)
    ensures AllHex(ToHex(n, width)) && ParseHex(ToHex(n, width)) == n
  {
    if width > 0 {
      var s := ToHex(n, width);
      ParseToHex(n / 16, width - 1);
      assert s[..width - 1] == ToHex(n / 16, width - 1);
    }
  }

  /** Writing back a lower-case hex string's value at its own width gives the string. */
  lemma {:induction false} ToHexParse(s: string)
    requires forall i :: 0 <= i < |s| ==> IsLowerHexDigit(s[i])
    ensures AllHex(s) && ToHex(ParseHex(s), |s|) == s
  {
    if s != [] {
      var init := s[..|s| - 1];
      ToHexParse(init);
      var n := ParseHex(s);
      assert n / 16 == ParseHex(init) && n % 16 == HexValue(s[|s| - 1]);
      HexCharOfValue(s[|s| - 1]);
      assert s == init + [s[|s| - 1]];
    }
  }

  /** Number.prototype.toString(16) on a non-negative integer: no leading zeros, "0" for zero. */
  function Radix16(n: nat): (s: string)
    ensures |s| >= 1
  {
    if n < 16 then [HexChar(n)] else Radix16(n / 16) + [HexChar(n % 16)]
  }

  /** String.prototype.padStart(width, fill). */
  function PadStart(s: string, width: nat, fill: char): (r: string)
    ensures |r| == if |s| >= width then |s| else width
  {
    if |s| >= width then s else seq(width - |s|, _ => fill) + s
  }

  lemma {:induction false} ToHexOfZero(width: nat)
    ensures ToHex(0, width) == seq(width, _ => '0')
  {
    if width > 0 {
      ToHexOfZero(width - 1);
    }
  }

  /** toString(16) padded with zeros to a width the value fits in is the fixed-width form. */
  lemma {:induction false} PaddedRadix16(n: nat, width: nat)
    requires 0 < width && n < Pow16(width)
    ensures PadStart(Radix16(n), width, '0') == ToHex(n, width)
  {
    if n < 16 {
      ToHexOfZero(width - 1);
      assert ToHex(n, width) == ToHex(0, width - 1) + [HexChar(n)];
    } else {
      assert width >= 2;
      PaddedRadix16(n / 16, width - 1);
      var front := Radix16(n / 16);
      assert |front| <= width - 1 by {
        assert |PadStart(front, width - 1, '0')| == width - 1;
      }
      assert PadStart(front + [HexChar(n % 16)], width, '0') == PadStart(front, width - 1, '0') + [HexChar(n % 16)];
    }
  }

  // ----------------------------------------------------------- adjustColor

  /** The colours adjustColor() is modelled on: six hex digits, with or without a leading '#'. */
  predicate IsHexColor(color: string) {
    || (|color| == 7 && color[0] == '#' && AllHex(color[1..]))
    || (|color| == 6 && AllHex(color))
  }

  function HasPound(color: string): bool {
    |color| > 0 && color[0] == '#'
  }

  /** The six digits of a colour. */
  function Digits(color: string): (d: string)
    requires IsHexColor(color)
    ensures |d| == 6 && AllHex(d)
  {
    if HasPound(color) then color[1..] else color
  }

  /** The value of a colour's red (0), green (1) or blue (2) channel. */
  function Channel(color: string, i: nat): (v: nat)
    requires IsHexColor(color) && i < 3
    ensures v < 256
  {
    var num := ParseHex(Digits(color));
    if i == 0 then num / 65536 else if i == 1 then num / 256 % 256 else num % 256
  }

  /** A channel value moved by `amount` and held within 0..255. */
  function Clamp(x: int): (c: nat)
    ensures c <= 255
    ensures 0 <= x <= 255 ==> c == x
    ensures x > 255 ==> c == 255
    ensures x < 0 ==> c == 0
  {
    if x > 255 then 255 else if x < 0 then 0 else x
  }

  /** A colour is its optional '#' followed by its digits. */
  lemma SplitColor(color: string)
    requires IsHexColor(color)
    ensures color == (if HasPound(color) then "#" else "") + Digits(color)
  {
  }

  /** The last step of adjustColor(): `(usePound ? '#' : '') + value.toString(16).padStart(6, '0')`. */
  function FormatColor(pound: bool, value: nat): string {
    (if pound then "#" else "") + PadStart(Radix16(value), 6, '0')
  }

  /** A 24-bit value is written as a colour whose six digits read back as that value. */
  lemma FormatColorDigits(pound: bool, value: nat)
    requires value < 16777216
    ensures var c := FormatColor(pound, value);
      && IsHexColor(c) && HasPound(c) == pound
      && Digits(c) == ToHex(value, 6) && ParseHex(Digits(c)) == value
  {
    assert Pow16(6) == 16777216;
    PaddedRadix16(value, 6);
    ParseToHex(value, 6);
    var digits := ToHex(value, 6);
    var c := FormatColor(pound, value);
    if pound {
      assert c == "#" + digits && c[1..] == digits;
    } else {
      assert c == digits;
    }
  }

  /**
   * adjustColor(): shift each channel by `amount`, clamp it to 0..255, and
   * write the result as six lower-case hex digits, keeping a leading '#'.
   * The shifts and masks are written as divisions and remainders, and the
   * final `|` as a sum; they agree because each channel fits in eight bits.
   */
  function AdjustColor(color: string, amount: int): (r: string)
    requires IsHexColor(color)
    ensures IsHexColor(r) && HasPound(r) == HasPound(color)
  {
    var num := ParseHex(Digits(color));
    var red := Clamp(num / 65536 + amount);
    var green := Clamp(num / 256 % 256 + amount);
    var blue := Clamp(num % 256 + amount);
    PackChannels(red, green, blue);
    FormatColorDigits(HasPound(color), red * 65536 + green * 256 + blue);
    FormatColor(HasPound(color), red * 65536 + green * 256 + blue)
  }

  /** Three channels packed as `r << 16 | g << 8 | b` unpack to themselves. */
  lemma PackChannels(red: nat, green: nat, blue: nat)
    requires red < 256 && green < 256 && blue < 256
    ensures var value := red * 65536 + green * 256 + blue;
      value < 16777216 && value / 65536 == red && value / 256 % 256 == green && value % 256 == blue
  {
    var value := red * 65536 + green * 256 + blue;
    assert value == (red * 256 + green) * 256 + blue;
    assert value / 256 == red * 256 + green;
  }

  /** A 24-bit value is the packing of its three channels. */
  lemma UnpackChannels(num: nat)
    requires num < 16777216
    ensures num / 65536 < 256
    ensures num / 65536 * 65536 + num / 256 % 256 * 256 + num % 256 == num
  {
    assert num == num / 256 * 256 + num % 256;
    assert num / 256 == num / 65536 * 256 + num / 256 % 256;
  }

  /** The value adjustColor() writes, for a colour whose digits read as `num`. */
  function AdjustedValue(num: nat, amount: int): nat {
    Clamp(num / 65536 + amount) * 65536 + Clamp(num / 256 % 256 + amount) * 256 + Clamp(num % 256 + amount)
  }

  /** The result is the adjusted value, a 24-bit one, written with the input's prefix. */
  lemma AdjustColorFormats(color: string, amount: int)
    requires IsHexColor(color)
    ensures AdjustedValue(ParseHex(Digits(color)), amount) < 16777216
    ensures AdjustColor(color, amount) == FormatColor(HasPound(color), AdjustedValue(ParseHex(Digits(color)), amount))
  {
    var num := ParseHex(Digits(color));
    var red, green, blue := Clamp(num / 65536 + amount), Clamp(num / 256 % 256 + amount), Clamp(num % 256 + amount);
    PackChannels(red, green, blue);
    assert AdjustedValue(num, amount) == red * 65536 + green * 256 + blue;
  }

  /**
   * The result is again a colour of the same kind: a leading '#' exactly when
   * the input had one, then six lower-case hex digits.
   */
  lemma AdjustColorShape(color: string, amount: int)
    requires IsHexColor(color)
    ensures var r := AdjustColor(color, amount);
      && IsHexColor(r)
      && HasPound(r) == HasPound(color)
      && forall i :: 0 <= i < 6 ==> IsLowerHexDigit(Digits(r)[i])
  {
    AdjustColorFormats(color, amount);
    FormatColorDigits(HasPound(color), AdjustedValue(ParseHex(Digits(color)), amount));
  }

  /** Reading the result's digits gives the adjusted value. */
  lemma AdjustedValueRead(color: string, amount: int)
    requires IsHexColor(color)
    ensures IsHexColor(AdjustColor(color, amount))
    ensures ParseHex(Digits(AdjustColor(color, amount))) == AdjustedValue(ParseHex(Digits(color)), amount)
  {
    AdjustColorFormats(color, amount);
    FormatColorDigits(HasPound(color), AdjustedValue(ParseHex(Digits(color)), amount));
  }

  /** The channels of the adjusted value are the input's channels, moved and clamped. */
  lemma AdjustedValueChannels(num: nat, amount: int)
    ensures var value := AdjustedValue(num, amount);
      && value / 65536 == Clamp(num / 65536 + amount)
      && value / 256 % 256 == Clamp(num / 256 % 256 + amount)
      && value % 256 == Clamp(num % 256 + amount)
  {
    PackChannels(Clamp(num / 65536 + amount), Clamp(num / 256 % 256 + amount), Clamp(num % 256 + amount));
  }

  /** Each channel of the result is the input's channel moved by `amount`, then clamped to 0..255. */
  lemma AdjustColorChannels(color: string, amount: int, i: nat)
    requires IsHexColor(color) && i < 3
    ensures IsHexColor(AdjustColor(color, amount))
    ensures Channel(AdjustColor(color, amount), i) == Clamp(Channel(color, i) + amount)
  {
    AdjustedValueRead(color, amount);
    AdjustedValueChannels(ParseHex(Digits(color)), amount);
  }

  /** Moving by 0 gives back a colour written in lower-case digits unchanged. */
  lemma AdjustColorByZero(color: string)
    requires IsHexColor(color) && forall i :: 0 <= i < 6 ==> IsLowerHexDigit(Digits(color)[i])
    ensures AdjustColor(color, 0) == color
  {
    var digits := Digits(color);
    var num := ParseHex(digits);
    assert Pow16(6) == 16777216;
    UnpackChannels(num);
    assert AdjustedValue(num, 0) == num;
    AdjustColorFormats(color, 0);
    FormatColorDigits(HasPound(color), num);
    ToHexParse(digits);
    SplitColor(color);
    SplitColor(AdjustColor(color, 0));
  }

  /** A larger amount never gives a smaller channel. */
  lemma AdjustColorMonotone(color: string, smaller: int, larger: int, i: nat)
    requires IsHexColor(color) && smaller <= larger && i < 3
    ensures IsHexColor(AdjustColor(color, smaller)) && IsHexColor(AdjustColor(color, larger))
    ensures Channel(AdjustColor(color, smaller), i) <= Channel(AdjustColor(color, larger), i)
  {
    AdjustColorChannels(color, smaller, i);
    AdjustColorChannels(color, larger, i);
  }

  // ------------------------------------------------------ the status badge

  const StatusColors: map<string, string> := map[
    "Processing" := "#ffc107",
    "In Transit" := "#17a2b8",
    "Out for Delivery" := "#fd7e14",
    "Delivered" := "#28a745",
    "Exception" := "#dc3545"]

  const FallbackColor := "#1e3c72"

  /** The badge colour of a status: its entry in the colour table, else the fallback. */
  function BadgeColor(status: string): (c: string)
    ensures status in StatusColors ==> c == StatusColors[status]
    ensures status !in StatusColors ==> c == FallbackColor
  {
    if status in StatusColors then StatusColors[status] else FallbackColor
  }

  /** Every badge colour, the fallback included, is a '#' and six lower-case hex digits. */
  lemma BadgeColorIsHex(status: string)
    ensures var c := BadgeColor(status);
      IsHexColor(c) && HasPound(c) && forall i :: 0 <= i < 6 ==> IsLowerHexDigit(Digits(c)[i])
  {
  }

  /** The badge gradient: from the status colour to that colour darkened by 20 per channel. */
  function BadgeGradient(status: string): (g: (string, string))
    ensures IsHexColor(g.0) && IsHexColor(g.1) && HasPound(g.1) == HasPound(g.0)
  {
    BadgeColorIsHex(status);
    (BadgeColor(status), AdjustColor(BadgeColor(status), -20))
  }

  /** The gradient never gets lighter: each channel of its end is at most the same channel of its start. */
  lemma GradientDarkens(status: string, i: nat)
    requires i < 3
    ensures var (from, to) := BadgeGradient(status);
      IsHexColor(from) && IsHexColor(to) && Channel(to, i) <= Channel(from, i)
  {
    var c := BadgeColor(status);
    BadgeColorIsHex(status);
    AdjustColorByZero(c);
    AdjustColorMonotone(c, -20, 0, i);
  }
}
