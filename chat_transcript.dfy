/**
 * The client-side conversation log shared by both browser clients: the
 * record each `addMessage` pushes, the input trimming applied before a text
 * submit, the latency formatter and the plain-text export.
 *
 * Locale-dependent and floating-point renderings are opaque: `localize`
 * stands for `new Date(ts).toLocaleString()` and `fixed2(ms, unit)` for
 * `(ms / unit).toFixed(2)`.
 */
module ChatTranscript {

  datatype Role = User | Assistant

  /** One entry of `conversationHistory`: role, content, ISO timestamp, inference latency in ms. */
  datatype Record = Record(role: Role, content: string, timestamp: string, llmTime: int)

  /** The record `addMessage(text, isUser, llmTime, timestamp)` pushes. */
  function MessageRecord(text: string, isUser: bool, llmTime: int, timestamp: string): (r: Record)
    ensures r.role == User <==> isUser
    ensures r.content == text && r.llmTime == llmTime && r.timestamp == timestamp
  {
    Record(if isUser then User else Assistant, text, timestamp, llmTime)
  }

  /** The assistant's greeting both clients add shortly after the page loads. */
  const WelcomeText: string := "Hello! I'm your AI assistant. Type a message or click the mic to speak."

  /** The text a template literal prints for a reply field that may be absent. */
  const Undefined: string := "undefined"

  // ---------------------------------------------------------------------
  // String.prototype.trim

  /**
   * The characters ECMAScript's `trim` removes, listed one by one: the
   * WhiteSpace code points (tab, vertical tab, form feed, space, no-break
   * space, zero-width no-break space and the Zs category) and the
   * LineTerminator code points.
   */
  const JsWhitespace: set<char> := {
    '\t', '\n', '\U{B}', '\U{C}', '\r', ' ', '\U{A0}', '\U{1680}',
    '\U{2000}', '\U{2001}', '\U{2002}', '\U{2003}', '\U{2004}', '\U{2005}',
    '\U{2006}', '\U{2007}', '\U{2008}', '\U{2009}', '\U{200A}',
    '\U{2028}', '\U{2029}', '\U{202F}', '\U{205F}', '\U{3000}', '\U{FEFF}'
  }

  /** White space and line terminators as ECMAScript's trim removes them, tested by ranges. */
  predicate IsJsWhitespace(c: char) {
    || c == '\t' || c == '\n' || c == '\U{B}' || c == '\U{C}' || c == '\r' || c == ' '
    || c == '\U{A0}' || c == '\U{1680}' || ('\U{2000}' <= c <= '\U{200A}')
    || c == '\U{2028}' || c == '\U{2029}' || c == '\U{202F}' || c == '\U{205F}'
    || c == '\U{3000}' || c == '\U{FEFF}'
  }

  /** The range test accepts exactly the listed code points. */
  lemma WhitespaceListed(c: char)
    ensures IsJsWhitespace(c) <==> c in JsWhitespace
  {
  }

  predicate IsBlank(s: string) {
    forall i :: 0 <= i < |s| ==> IsJsWhitespace(s[i])
  }

  function TrimStart(s: string): (r: string)
    ensures |r| <= |s| && r == s[|s| - |r|..]
    ensures r != [] ==> !IsJsWhitespace(r[0])
  {
    if |s| > 0 && IsJsWhitespace(s[0]) then
      var r := TrimStart(s[1..]);
      assert s[1..][|s| - 1 - |r|..] == s[|s| - |r|..];
      r
    else s
  }

  /** Everything `TrimStart` removes is white space. */
  lemma {:induction false} TrimStartBlank(s: string)
    ensures forall k :: 0 <= k < |s| - |TrimStart(s)| ==> IsJsWhitespace(s[k])
  {
    if |s| > 0 && IsJsWhitespace(s[0]) {
      TrimStartBlank(s[1..]);
      forall k | 1 <= k < |s| - |TrimStart(s)| ensures IsJsWhitespace(s[k]) {
        assert s[k] == s[1..][k - 1];
      }
    }
  }

  function TrimEnd(s: string): (r: string)
    ensures |r| <= |s| && r == s[..|r|]
    ensures r != [] ==> !IsJsWhitespace(r[|r| - 1])
  {
    if |s| > 0 && IsJsWhitespace(s[|s| - 1]) then
      var r := TrimEnd(s[..|s| - 1]);
      assert s[..|s| - 1][..|r|] == s[..|r|];
      r
    else s
  }

  /** Everything `TrimEnd` removes is white space. */
  lemma {:induction false} TrimEndBlank(s: string)
    ensures forall k :: |TrimEnd(s)| <= k < |s| ==> IsJsWhitespace(s[k])
  {
    if |s| > 0 && IsJsWhitespace(s[|s| - 1]) {
      var p := s[..|s| - 1];
      TrimEndBlank(p);
      forall k | |TrimEnd(s)| <= k < |s| - 1 ensures IsJsWhitespace(s[k]) {
        assert s[k] == p[k];
      }
    }
  }

  /**
   * `s.trim()`: white space removed at both ends. `TrimInfix` shows the
   * result is the infix of `s` between a blank prefix and a blank suffix.
   */
  function Trim(s: string): (r: string)
    ensures |r| <= |s|
    ensures r != [] ==> !IsJsWhitespace(r[0]) && !IsJsWhitespace(r[|r| - 1])
  {
    TrimEnd(TrimStart(s))
  }

  /** `r` sits at offset `i` of `s`, with only white space before and after it. */
  predicate TrimmedAt(s: string, r: string, i: int) {
    && 0 <= i && i + |r| <= |s| && r == s[i..i + |r|]
    && (forall k :: 0 <= k < i ==> IsJsWhitespace(s[k]))
    && (forall k :: i + |r| <= k < |s| ==> IsJsWhitespace(s[k]))
  }

  /** The trimmed text is the input between a blank prefix and a blank suffix. */
  lemma TrimInfix(s: string)
    ensures exists i :: TrimmedAt(s, Trim(s), i)
  {
    var t := TrimStart(s);
    TrimStartBlank(s);
    TrimEndBlank(t);
    BlankAround(s, |s| - |t|, t, TrimEnd(t));
    assert TrimmedAt(s, Trim(s), |s| - |t|);
  }

  /** Blank ends of the two trimming steps, stated on `s`'s own indices. */
  lemma BlankAround(s: string, i: int, t: string, r: string)
    requires 0 <= i <= |s| && t == s[i..] && forall k :: 0 <= k < i ==> IsJsWhitespace(s[k])
    requires |r| <= |t| && r == t[..|r|] && forall k :: |r| <= k < |t| ==> IsJsWhitespace(t[k])
    ensures TrimmedAt(s, r, i)
  {
    forall k | i + |r| <= k < |s| ensures IsJsWhitespace(s[k]) {
      assert s[k] == t[k - i];
    }
  }

  /** The trimmed input is empty exactly when every character is white space. */
  lemma TrimEmptyIffBlank(s: string)
    ensures Trim(s) == [] <==> IsBlank(s)
  {
    var t := TrimStart(s);
    TrimStartBlank(s);
    TrimEndBlank(t);
    if Trim(s) == [] {
      assert IsBlank(t[0..]);
      assert s == s[..|s| - |t|] + t;
    } else {
      var k := |s| - |t|;
      assert s[k] == t[0];
      assert !IsJsWhitespace(s[k]);
    }
  }

  // ---------------------------------------------------------------------
  // formatTime

  datatype TimeUnit = Millis | Seconds | Minutes

  /** The unit `formatTime` picks for a duration in milliseconds. */
  function UnitFor(ms: int): (u: TimeUnit)
    ensures u == Millis <==> ms < 1000
    ensures u == Seconds <==> 1000 <= ms < 60000
    ensures u == Minutes <==> ms >= 60000
  {
    if ms < 1000 then Millis else if ms < 60000 then Seconds else Minutes
  }

  function DigitChar(d: nat): (c: char)
    requires d < 10
    ensures '0' <= c <= '9' && (c as int) - ('0' as int) == d
  {
    "0123456789"[d]
  }

  predicate IsDigits(s: string) {
    forall i :: 0 <= i < |s| ==> '0' <= s[i] <= '9'
  }

  /** Decimal rendering of a natural number, as `Math.round` prints an integral value. */
  function NatToDecimal(n: nat): (s: string)
    ensures |s| >= 1 && IsDigits(s)
  {
    if n < 10 then [DigitChar(n)] else NatToDecimal(n / 10) + [DigitChar(n % 10)]
  }

  /** The value a string of decimal digits denotes. */
  function DecimalValue(s: string): nat
    requires IsDigits(s)
  {
    if s == [] then 0 else 10 * DecimalValue(s[..|s| - 1]) + ((s[|s| - 1] as int) - ('0' as int))
  }

  lemma {:induction false} DecimalRoundTrip(n: nat)
    ensures DecimalValue(NatToDecimal(n)) == n
  {
    if n >= 10 {
      DecimalRoundTrip(n / 10);
      var s := NatToDecimal(n);
      assert s[..|s| - 1] == NatToDecimal(n / 10);
    }
  }

  function IntToDecimal(i: int): string {
    if i < 0 then "-" + NatToDecimal(-i) else NatToDecimal(i)
  }

  function UnitSuffix(u: TimeUnit): string {
    match u
    case Millis => "ms"
    case Seconds => "s"
    case Minutes => "m"
  }

  /** `formatTime(ms)` for an integral duration: the figure, then the unit for its range. */
  function FormatTime(ms: int, fixed2: (int, int) -> string): (t: string)
    ensures var u := UnitSuffix(UnitFor(ms)); |t| >= |u| && t[|t| - |u|..] == u
  {
    match UnitFor(ms)
    case Millis => IntToDecimal(ms) + "ms"
    case Seconds => fixed2(ms, 1000) + "s"
    case Minutes => fixed2(ms, 60000) + "m"
  }

  /**
   * A sub-second duration is printed exactly and reads back as itself;
   * longer ones carry the unit for their range.
   */
  lemma FormatTimeUnits(ms: int, fixed2: (int, int) -> string)
    ensures 0 <= ms < 1000 ==>
      var t := FormatTime(ms, fixed2);
      |t| >= 3 && t[|t| - 2..] == "ms" && IsDigits(t[..|t| - 2]) && DecimalValue(t[..|t| - 2]) == ms
    ensures 1000 <= ms < 60000 ==> FormatTime(ms, fixed2) == fixed2(ms, 1000) + UnitSuffix(Seconds)
    ensures ms >= 60000 ==> FormatTime(ms, fixed2) == fixed2(ms, 60000) + UnitSuffix(Minutes)
  {
    if 0 <= ms < 1000 {
      var t := FormatTime(ms, fixed2);
      assert t == NatToDecimal(ms) + "ms";
      assert t[..|t| - 2] == NatToDecimal(ms);
      DecimalRoundTrip(ms);
    }
  }

  // ---------------------------------------------------------------------
  // Plain-text export

  /** Concatenation regroups freely; stated once so long literals need not be unfolded to see it. */
  lemma AppendAssoc<T>(a: seq<T>, b: seq<T>, c: seq<T>)
    ensures a + (b + c) == (a + b) + c
  {
  }

  const ExportHeader: string := "Chat History\n=============\n\n"

  function RoleLabel(role: Role): string {
    if role == User then "You" else "Assistant"
  }

  /** The " (Inference: ...)" annotation: only on assistant records with a nonzero latency. */
  function InferenceSuffix(r: Record, fixed2: (int, int) -> string): (s: string)
    ensures s != [] <==> r.role == Assistant && r.llmTime != 0
  {
    if r.role == Assistant && r.llmTime != 0 then " (Inference: " + FormatTime(r.llmTime, fixed2) + ")" else ""
  }

  /** The two lines one record contributes: "[ts] Role: content<suffix>" and a blank line. */
  function RecordLines(r: Record, localize: string -> string, fixed2: (int, int) -> string): string {
    "[" + localize(r.timestamp) + "] " + RoleLabel(r.role) + ": " + r.content + InferenceSuffix(r, fixed2) + "\n" + "\n"
  }

  /** The lines of each record in turn, in transcript order. */
  function ConcatLines(h: seq<Record>, lines: Record -> string): string {
    if h == [] then "" else ConcatLines(h[..|h| - 1], lines) + lines(h[|h| - 1])
  }

  /**
   * A record's lines open with its bracketed, localised time and its role,
   * end in a blank line, and carry the inference suffix just before the
   * line break.
   */
  lemma RecordLinesShape(r: Record, localize: string -> string, fixed2: (int, int) -> string)
    ensures var lines, head := RecordLines(r, localize, fixed2), "[" + localize(r.timestamp) + "] " + RoleLabel(r.role) + ": ";
      && |lines| >= |head| + 2
      && lines[..|head|] == head
      && lines[|lines| - 2..] == "\n\n"
      && lines[|head|..|lines| - 2] == r.content + InferenceSuffix(r, fixed2)
  {
    var head := "[" + localize(r.timestamp) + "] " + RoleLabel(r.role) + ": ";
    var body := r.content + InferenceSuffix(r, fixed2);
    assert RecordLines(r, localize, fixed2) == head + body + "\n\n";
  }

  /** The records' part of the text export. */
  function ExportBody(h: seq<Record>, localize: string -> string, fixed2: (int, int) -> string): string {
    ConcatLines(h, r => RecordLines(r, localize, fixed2))
  }

  /** The text export of a transcript. */
  function ExportText(h: seq<Record>, localize: string -> string, fixed2: (int, int) -> string): string {
    ExportHeader + ExportBody(h, localize, fixed2)
  }

  /** Every export opens with the title block; an empty transcript exports the title block alone. */
  lemma ExportStartsWithHeader(h: seq<Record>, localize: string -> string, fixed2: (int, int) -> string)
    ensures var t := ExportText(h, localize, fixed2); |t| >= |ExportHeader| && t[..|ExportHeader|] == ExportHeader
    ensures h == [] ==> ExportText(h, localize, fixed2) == ExportHeader
  {
  }

  lemma {:induction false} ConcatLinesAppend(h1: seq<Record>, h2: seq<Record>, lines: Record -> string)
    ensures ConcatLines(h1 + h2, lines) == ConcatLines(h1, lines) + ConcatLines(h2, lines)
  {
    if h2 == [] {
      assert h1 + h2 == h1;
    } else {
      var init, last := h2[..|h2| - 1], h2[|h2| - 1];
      assert h2 == init + [last];
      assert h1 + h2 == (h1 + init) + [last];
      ConcatLinesAppend(h1, init, lines);
      ConcatLinesPush(h1 + init, last, lines);
      ConcatLinesPush(init, last, lines);
    }
  }

  /**
   * Export distributes over concatenation: the export of a transcript is
   * the export of any prefix followed by the lines of the remaining records.
   * As the transcript only grows, an earlier export is a prefix of a later one.
   */
  lemma ExportAppend(h1: seq<Record>, h2: seq<Record>, localize: string -> string, fixed2: (int, int) -> string)
    ensures ExportText(h1 + h2, localize, fixed2) == ExportText(h1, localize, fixed2) + ExportBody(h2, localize, fixed2)
  {
    var lines := (x: Record) => RecordLines(x, localize, fixed2);
    ConcatLinesAppend(h1, h2, lines);
    var b1, b2 := ConcatLines(h1, lines), ConcatLines(h2, lines);
    assert ExportText(h1 + h2, localize, fixed2) == ExportHeader + (b1 + b2);
    AppendAssoc(ExportHeader, b1, b2);
  }

  /** Appending one record appends exactly its two lines to the export. */
  lemma ExportPush(h: seq<Record>, r: Record, localize: string -> string, fixed2: (int, int) -> string)
    ensures ExportText(h + [r], localize, fixed2) == ExportText(h, localize, fixed2) + RecordLines(r, localize, fixed2)
  {
    var lines := (x: Record) => RecordLines(x, localize, fixed2);
    ConcatLinesPush(h, r, lines);
    var body := ConcatLines(h, lines);
    assert ExportText(h + [r], localize, fixed2) == ExportHeader + (body + lines(r));
    AppendAssoc(ExportHeader, body, lines(r));
  }

  lemma ConcatLinesPush(h: seq<Record>, r: Record, lines: Record -> string)
    ensures ConcatLines(h + [r], lines) == ConcatLines(h, lines) + lines(r)
  {
    assert (h + [r])[..|h|] == h;
  }

  lemma ExportStep(h: seq<Record>, i: nat, localize: string -> string, fixed2: (int, int) -> string)
    requires i < |h|
    ensures ExportText(h[..i + 1], localize, fixed2) == ExportText(h[..i], localize, fixed2) + RecordLines(h[i], localize, fixed2)
  {
    assert h[..i + 1] == h[..i] + [h[i]];
    ExportPush(h[..i], h[i], localize, fixed2);
  }

  /** The `forEach` loop of `exportChat`'s text branch, accumulating `textContent`. */
  method ExportTextLoop(h: seq<Record>, localize: string -> string, fixed2: (int, int) -> string)
    returns (textContent: string)
    ensures textContent == ExportText(h, localize, fixed2)
  {
    textContent := ExportHeader;
    var i := 0;
    while i < |h|
      invariant 0 <= i <= |h|
      invariant textContent == ExportText(h[..i], localize, fixed2)
    {
      var msg := h[i];
      var role := if msg.role == User then "You" else "Assistant";
      var timestamp := localize(msg.timestamp);
      var line: string;
      if msg.role == User {
        line := "[" + timestamp + "] " + role + ": " + msg.content + "\n";
      } else {
        var inferenceInfo := if msg.llmTime != 0 then " (Inference: " + FormatTime(msg.llmTime, fixed2) + ")" else "";
        line := "[" + timestamp + "] " + role + ": " + msg.content + inferenceInfo + "\n";
      }
      LineMatches(msg, line, localize, fixed2);
      ExportStep(h, i, localize, fixed2);
      ghost var before := textContent;
      textContent := textContent + line;
      textContent := textContent + "\n";
      AppendAssoc(before, line, "\n");
      i := i + 1;
    }
    assert h[..i] == h;
  }

  lemma LineMatches(msg: Record, line: string, localize: string -> string, fixed2: (int, int) -> string)
    requires msg.role == User ==>
      line == "[" + localize(msg.timestamp) + "] " + "You" + ": " + msg.content + "\n"
    requires msg.role == Assistant ==>
      line == "[" + localize(msg.timestamp) + "] " + "Assistant" + ": " + msg.content
              + (if msg.llmTime != 0 then " (Inference: " + FormatTime(msg.llmTime, fixed2) + ")" else "") + "\n"
    ensures line + "\n" == RecordLines(msg, localize, fixed2)
  {
    var prefix := "[" + localize(msg.timestamp) + "] " + RoleLabel(msg.role) + ": " + msg.content;
    var suffix := InferenceSuffix(msg, fixed2);
    assert line == prefix + suffix + "\n";
  }
}
