/**
 * `server/index.ts`: the line logged for each finished `/api` request, cut
 * to 80 UTF-16 code units (the unit of JavaScript's `length` and `slice`),
 * and the fallback status and message of the error handler.
 * `JSON.stringify` is not modelled: a captured body carries its JSON text.
 */
module RequestLog {
  import opened Wrappers
  import opened Strings
  import opened JsValues

  const MaxLineLength: nat := 80

  /** The suffix literal in `server/index.ts`: the UTF-8 bytes of U+2026 read as three characters. */
  const MisdecodedEllipsis: string := "\U{E2}\U{20AC}\U{A6}"

  /** U+2026 HORIZONTAL ELLIPSIS, the suffix of the bundled copy. */
  const Ellipsis: string := "\U{2026}"

  /** The value passed to `res.json`, and its JSON text. */
  datatype Captured = Captured(value: JsValue, json: string)

  /** `${req.method} ${path} ${res.statusCode} in ${duration}ms`, plus ` :: <json>` for a truthy captured body. */
  function FullLine(verb: string, path: string, status: int, durationMs: int, captured: Option<Captured>): (line: string)
    ensures StartsWith(line, verb + " " + path + " " + IntToDecimal(status) + " in " + IntToDecimal(durationMs) + "ms")
    ensures captured.Some? && Truthy(captured.value.value) ==> EndsWith(line, " :: " + captured.value.json)
    ensures !(captured.Some? && Truthy(captured.value.value)) ==>
      line == verb + " " + path + " " + IntToDecimal(status) + " in " + IntToDecimal(durationMs) + "ms"
  {
    var head := verb + " " + path + " " + IntToDecimal(status) + " in " + IntToDecimal(durationMs) + "ms";
    if captured.Some? && Truthy(captured.value.value) then
      ConcatEnds(head, " :: " + captured.value.json);
      head + (" :: " + captured.value.json)
    else
      ConcatEnds(head, []);
      head
  }

  /**
   * From position `p` on, `line` reads `<status> in <duration>ms`, the two
   * numbers rendered in decimal (which `DecimalRoundTrip` reads back).
   */
  predicate ReadsBack(line: string, p: nat, status: nat, durationMs: nat) {
    var k := |NatToDecimal(status)|;
    var d := |NatToDecimal(durationMs)|;
    && p + k + 4 + d + 2 <= |line|
    && line[p..p + k] == NatToDecimal(status)
    && line[p + k..p + k + 4] == " in "
    && line[p + k + 4..p + k + 4 + d] == NatToDecimal(durationMs)
    && line[p + k + 4 + d..p + k + 4 + d + 2] == "ms"
  }

  /**
   * The status and the duration read back from a line: after `<method> <path> `
   * come the status digits, ` in `, the duration digits and `ms`.
   */
  lemma FullLineReadsBack(verb: string, path: string, status: nat, durationMs: nat, captured: Option<Captured>)
    ensures ReadsBack(FullLine(verb, path, status, durationMs, captured), |verb + " " + path + " "|, status, durationMs)
  {
    var line := FullLine(verb, path, status, durationMs, captured);
    var pre := verb + " " + path + " ";
    assert IntToDecimal(status) == NatToDecimal(status) && IntToDecimal(durationMs) == NatToDecimal(durationMs);
    assert StartsWith(line, pre + NatToDecimal(status) + " in " + NatToDecimal(durationMs) + "ms");
    NumbersReadBack(line, pre, status, durationMs);
  }

  /** The two numbers of a line that starts with `<pre><status> in <duration>ms`. */
  lemma NumbersReadBack(line: string, pre: string, status: nat, durationMs: nat)
    requires StartsWith(line, pre + NatToDecimal(status) + " in " + NatToDecimal(durationMs) + "ms")
    ensures ReadsBack(line, |pre|, status, durationMs)
  {
    var st := NatToDecimal(status);
    var du := NatToDecimal(durationMs);
    LastPiece(line, pre + st + " in " + du, "ms");
    LastPiece(line, pre + st + " in ", du);
    LastPiece(line, pre + st, " in ");
    LastPiece(line, pre, st);
  }

  /** A line that starts with `a + b` starts with `a`, and `b` follows it. */
  lemma LastPiece(line: string, a: string, b: string)
    requires StartsWith(line, a + b)
    ensures StartsWith(line, a)
    ensures line[|a|..|a| + |b|] == b
  {
    assert (a + b)[..|a|] == a;
    assert line[..|a|] == line[..|a + b|][..|a|];
    assert line[|a|..|a| + |b|] == line[..|a + b|][|a|..];
    assert (a + b)[|a|..] == b;
  }

  /**
   * `line.length > 80 ? line.slice(0, 79) + suffix : line`, on UTF-16 code
   * units as JavaScript counts and cuts them.
   */
  function Cut(line: seq<CodeUnit>, suffix: seq<CodeUnit>): (r: seq<CodeUnit>)
    ensures |line| <= MaxLineLength ==> r == line
    ensures |line| > MaxLineLength ==> |r| == 79 + |suffix| && r[..79] == line[..79] && r[79..] == suffix
  {
    if |line| > MaxLineLength then line[..79] + suffix else line
  }

  /** The log line of `server/index.ts` for a request on `path`, if any, as UTF-16 code units. */
  function LogLine(verb: string, path: string, status: int, durationMs: int, captured: Option<Captured>): (r: Option<seq<CodeUnit>>)
    ensures r.Some? <==> StartsWith(path, "/api")
  {
    if StartsWith(path, "/api") then Some(Cut(Utf16(FullLine(verb, path, status, durationMs, captured)), Utf16(MisdecodedEllipsis)))
    else None
  }

  /** The log line of the bundled copy, whose suffix is the single character U+2026. */
  function BundledLogLine(verb: string, path: string, status: int, durationMs: int, captured: Option<Captured>): (r: Option<seq<CodeUnit>>)
    ensures r.Some? <==> StartsWith(path, "/api")
    ensures r.Some? ==> |r.value| <= MaxLineLength
  {
    if StartsWith(path, "/api") then Some(Cut(Utf16(FullLine(verb, path, status, durationMs, captured)), Utf16(Ellipsis)))
    else None
  }

  /** A line of at most 80 code units is logged whole, in both copies. */
  lemma ShortLinesLoggedWhole(verb: string, path: string, status: int, durationMs: int, captured: Option<Captured>)
    requires StartsWith(path, "/api")
    requires |Utf16(FullLine(verb, path, status, durationMs, captured))| <= MaxLineLength
    ensures LogLine(verb, path, status, durationMs, captured) == Some(Utf16(FullLine(verb, path, status, durationMs, captured)))
    ensures BundledLogLine(verb, path, status, durationMs, captured) == LogLine(verb, path, status, durationMs, captured)
  {
  }

  /**
   * As written, a long line keeps its first 79 code units and gains three
   * more: 82, over the 80 that the `length > 80` test is meant to enforce.
   */
  lemma LongLinesOverflow(verb: string, path: string, status: int, durationMs: int, captured: Option<Captured>)
    requires StartsWith(path, "/api")
    requires |Utf16(FullLine(verb, path, status, durationMs, captured))| > MaxLineLength
    ensures var r := LogLine(verb, path, status, durationMs, captured).value;
      |r| == MaxLineLength + 2 && r[..79] == Utf16(FullLine(verb, path, status, durationMs, captured))[..79]
  {
  }

  /** With U+2026 as the suffix a long line becomes exactly 80 code units, and cutting again changes nothing. */
  lemma EllipsisCutFits(line: seq<CodeUnit>)
    requires |line| > MaxLineLength
    ensures |Cut(line, Utf16(Ellipsis))| == MaxLineLength
    ensures Cut(Cut(line, Utf16(Ellipsis)), Utf16(Ellipsis)) == Cut(line, Utf16(Ellipsis))
  {
  }

  /**
   * A character outside the Basic Multilingual Plane counts twice: a line of
   * 79 characters inside the plane followed by one emoji has 80 characters
   * but 81 code units, so it is cut.
   */
  lemma {:induction false} AstralCharacterCountsTwice(line: string)
    requires |line| == MaxLineLength
    requires forall i :: 0 <= i < 79 ==> !IsAstral(line[i])
    requires IsAstral(line[79])
    ensures |Utf16(line)| == MaxLineLength + 1
    ensures Cut(Utf16(line), Utf16(Ellipsis)) != Utf16(line)
  {
    assert line == line[..79] + [line[79]];
    Utf16Append(line[..79], [line[79]]);
    assert Utf16([line[79]]) == Utf16Char(line[79]);
  }

  // ---------------------------------------------------------------------------
  // Error handler

  /** The fields of a thrown error the handler reads. */
  datatype HttpError = HttpError(status: JsValue, statusCode: JsValue, message: JsValue)

  /** The status and message the error handler answers with. */
  datatype ErrorReply = ErrorReply(status: JsValue, message: JsValue)

  const DefaultErrorMessage: string := "Internal Server Error"

  /**
   * `err.status || err.statusCode || 500` and `err.message || "Internal Server Error"`:
   * the first truthy status wins, so the reply always has a truthy status
   * and a truthy message.
   */
  function ErrorReplyOf(err: HttpError): (r: ErrorReply)
    ensures Truthy(r.status) && Truthy(r.message)
    ensures Truthy(err.status) ==> r.status == err.status
    ensures !Truthy(err.status) && Truthy(err.statusCode) ==> r.status == err.statusCode
    ensures !Truthy(err.status) && !Truthy(err.statusCode) ==> r.status == Num(500.0)
    ensures Truthy(err.message) ==> r.message == err.message
    ensures !Truthy(err.message) ==> r.message == Str(DefaultErrorMessage, None)
  {
    var status := if Truthy(err.status) then err.status else if Truthy(err.statusCode) then err.statusCode else Num(500.0);
    var message := if Truthy(err.message) then err.message else Str(DefaultErrorMessage, None);
    ErrorReply(status, message)
  }

  /** A status of 0 is falsy and falls through to `statusCode`, just like a missing one. */
  lemma ZeroStatusFallsThrough(code: JsValue, message: JsValue)
    ensures ErrorReplyOf(HttpError(Num(0.0), code, message)) == ErrorReplyOf(HttpError(Undefined, code, message))
  {
  }
}
