/**
 * Fetching the Claude usage figures over SSH
 * (ShinobiTerm/ShinobiTerm/Services/ClaudeUsageService.swift): the quoting
 * of the remote script into a `python3 -c` command, the branching on the
 * command's answer, and the reading of the JSON reply.
 *
 * The remote script's text, the command execution, `JSONSerialization`,
 * `Double(String)` and the clock are parameters.
 */
module ClaudeUsageService {
  import opened Wrappers
  import opened SwiftText

  // ------------------------------------------------------------ records

  /** One usage window (ShinobiTerm/ShinobiTerm/Models/ClaudeUsage.swift). */
  datatype UsagePeriod = UsagePeriod(utilization: real, resetsAt: Option<string>)

  datatype ClaudeUsage = ClaudeUsage(
    fiveHour: UsagePeriod,
    sevenDay: UsagePeriod,
    sevenDayOpus: Option<UsagePeriod>,
    sevenDaySonnet: Option<UsagePeriod>,
    fetchedAt: string)

  datatype UsageResult = UsageResult(usage: Option<ClaudeUsage>, error: Option<string>)

  // ------------------------------------------------------------ shell quoting

  const Quote: char := '\''
  /** A quote inside the quoted text: close, an escaped quote, reopen. */
  const QuotedQuote: string := "'\\''"

  /** `shellEscaped`: the text in single quotes, each quote in it written `'\''`. */
  function ShellEscaped(s: string): string {
    [Quote] + ReplaceAll(s, [Quote], QuotedQuote) + [Quote]
  }

  /** The command that runs the remote script. */
  function UsageCommand(script: string): string {
    "python3 -c " + ShellEscaped(script)
  }

  /**
   * The text one shell word stands for, under the quoting rules of the POSIX
   * Shell Command Language (sections 2.2.1 and 2.2.2 of POSIX.1-2017): inside
   * single quotes every character is literal up to the next quote; outside, a
   * backslash keeps the next character literal and a backslash-newline
   * disappears. `None` for an unterminated quote or a trailing backslash.
   */
  function Unquote(s: string, inQuotes: bool): Option<string>
    decreases |s|
  {
    if s == [] then (if inQuotes then None else Some([]))
    else if inQuotes then
      if s[0] == Quote then Unquote(s[1..], false) else Prepend(s[0], Unquote(s[1..], true))
    else if s[0] == Quote then Unquote(s[1..], true)
    else if s[0] == '\\' then
      if |s| < 2 then None
      else if s[1] == '\n' then Unquote(s[2..], false)
      else Prepend(s[1], Unquote(s[2..], false))
    else Prepend(s[0], Unquote(s[1..], false))
  }

  function Prepend(c: char, o: Option<string>): Option<string> {
    match o
    case None => None
    case Some(t) => Some([c] + t)
  }

  /** The shell reads the escaped text back as exactly the original. */
  lemma ShellEscapedRoundTrip(s: string)
    ensures Unquote(ShellEscaped(s), false) == Some(s)
  {
    ReplaceCharIsMap(s, Quote, QuotedQuote);
    var e := MapChar(s, Quote, QuotedQuote) + [Quote] + [];
    assert ShellEscaped(s) == [Quote] + e;
    assert ([Quote] + e)[1..] == e;
    UnquoteMapped(s, []);
    assert s + [] == s;
  }

  /** Inside quotes, the escaped form of `s` and a closing quote read as `s`. */
  lemma {:induction false} UnquoteMapped(s: string, tail: string)
    ensures Unquote(MapChar(s, Quote, QuotedQuote) + [Quote] + tail, true) ==
      PrependAll(s, Unquote(tail, false))
  {
    var w := MapChar(s, Quote, QuotedQuote) + [Quote] + tail;
    if s == [] {
      assert w == [Quote] + tail;
      assert w[1..] == tail;
      match Unquote(tail, false) {
        case None =>
        case Some(t) => assert s + t == t;
      }
    } else {
      var m' := MapChar(s[1..], Quote, QuotedQuote);
      var w' := m' + [Quote] + tail;
      UnquoteMapped(s[1..], tail);
      var head := if s[0] == Quote then QuotedQuote else [s[0]];
      assert w == head + w' by {
        assert MapChar(s, Quote, QuotedQuote) == head + m';
        Append3(head, m', [Quote], tail);
      }
      if s[0] == Quote {
        var v := w[1..];
        assert v == ['\\', Quote] + ([Quote] + w');
        assert v[2..] == [Quote] + w';
        assert ([Quote] + w')[1..] == w';
        assert Unquote([Quote] + w', false) == Unquote(w', true);
        assert Unquote(v, false) == Prepend(Quote, Unquote(v[2..], false));
        assert Unquote(w, true) == Unquote(v, false);
        assert Unquote(w, true) == Prepend(s[0], Unquote(w', true));
      } else {
        assert w[1..] == w';
        assert Unquote(w, true) == Prepend(s[0], Unquote(w', true));
      }
      match Unquote(tail, false) {
        case None =>
        case Some(t) => ConsAppend(s, t);
      }
    }
  }

  /** Appending is associative; stated once for the four-part case the proofs need. */
  lemma Append3(a: string, b: string, c: string, d: string)
    ensures (a + b) + c + d == a + (b + c + d)
  {
  }

  lemma ConsAppend(s: string, t: string)
    requires s != []
    ensures s + t == [s[0]] + (s[1..] + t)
  {
    assert s == [s[0]] + s[1..];
  }

  function PrependAll(s: string, o: Option<string>): Option<string> {
    match o
    case None => None
    case Some(t) => Some(s + t)
  }

  /** The escaped text opens and closes with a quote. */
  lemma ShellEscapedQuoted(s: string)
    ensures |ShellEscaped(s)| >= 2
    ensures ShellEscaped(s)[0] == Quote && ShellEscaped(s)[|ShellEscaped(s)| - 1] == Quote
  {
  }

  /** Each quote grows by three characters, and the text gains two enclosing quotes. */
  lemma ShellEscapedLength(s: string)
    ensures |ShellEscaped(s)| == |s| + 2 + 3 * CountChar(s, Quote)
  {
    ReplaceCharIsMap(s, Quote, QuotedQuote);
    MapQuoteLength(s);
  }

  lemma {:induction false} MapQuoteLength(s: string)
    ensures |MapChar(s, Quote, QuotedQuote)| == |s| + 3 * CountChar(s, Quote)
  {
    if s != [] {
      MapQuoteLength(s[1..]);
    }
  }

  // ------------------------------------------------------------ the JSON reply

  /** A value as `JSONSerialization` delivers it. */
  datatype Json =
    | JNull
    | JBool(b: bool)
    | JInt(i: int)
    | JDouble(d: real)
    | JString(s: string)
    | JArray(items: seq<Json>)
    | JObject(fields: map<string, Json>)

  /** The answer of `JSONSerialization.jsonObject`, which throws on malformed text. */
  datatype JsonOutcome = Parsed(value: Json) | Rejected(description: string)

  /** What running the command gave: its output (`nil` when unreadable), or a thrown error. */
  datatype ExecOutcome = Ran(output: Option<string>) | ExecFailed(description: string)

  const NoClientMessage: string := "SSH client not available"
  /** "Could not parse the response". */
  const ParseFailedMessage: string := "\U{30EC}\U{30B9}\U{30DD}\U{30F3}\U{30B9}\U{306E}\U{89E3}\U{6790}\U{306B}\U{5931}\U{6557}\U{3057}\U{307E}\U{3057}\U{305F}"

  /**
   * `parseUtilization`: a floating-point number as it is, an integer widened,
   * a string read as a number once every `%` is removed, anything else 0.
   */
  function ParseUtilization(v: Option<Json>, parseDouble: string -> Option<real>): (u: real)
    ensures v.Some? && v.value.JDouble? ==> u == v.value.d
    ensures v.Some? && v.value.JInt? ==> u == v.value.i as real
    ensures v.Some? && v.value.JString? ==>
      u == parseDouble(RemoveChar(v.value.s, '%')).GetOr(0.0)
    ensures v.None? || !(v.value.JDouble? || v.value.JInt? || v.value.JString?) ==> u == 0.0
  {
    match v
    case Some(JDouble(d)) => d
    case Some(JInt(i)) => i as real
    case Some(JString(s)) =>
      ReplaceCharByNothing(s, '%');
      parseDouble(ReplaceAll(s, "%", "")).GetOr(0.0)
    case _ => 0.0
  }

  /** `parsePeriod(key)`: a period when `key` holds an object. */
  function ParsePeriod(json: map<string, Json>, key: string, parseDouble: string -> Option<real>): (p: Option<UsagePeriod>)
    ensures p.Some? <==> key in json && json[key].JObject?
  {
    if key in json && json[key].JObject? then
      var d := json[key].fields;
      var resetsAt := if "resets_at" in d && d["resets_at"].JString? then Some(d["resets_at"].s) else None;
      Some(UsagePeriod(ParseUtilization(if "utilization" in d then Some(d["utilization"]) else None, parseDouble), resetsAt))
    else None
  }

  const EmptyPeriod: UsagePeriod := UsagePeriod(0.0, None)

  /** `parseUsageResponse`; `now` is the formatted current time. */
  function ParseUsageResponse(json: map<string, Json>, parseDouble: string -> Option<real>, now: string): ClaudeUsage {
    ClaudeUsage(
      ParsePeriod(json, "five_hour", parseDouble).GetOr(EmptyPeriod),
      ParsePeriod(json, "seven_day", parseDouble).GetOr(EmptyPeriod),
      ParsePeriod(json, "seven_day_opus", parseDouble),
      ParsePeriod(json, "seven_day_sonnet", parseDouble),
      now)
  }

  /**
   * `fetchUsage`: no client, an unparsable reply, an error string in the
   * reply and a thrown error each give a message; otherwise the usage.
   */
  function FetchUsage(hasClient: bool, exec: ExecOutcome, parseJson: string -> JsonOutcome,
                      parseDouble: string -> Option<real>, now: string): UsageResult
  {
    if !hasClient then UsageResult(None, Some(NoClientMessage))
    else match exec
      case ExecFailed(d) => UsageResult(None, Some("SSH: " + d))
      case Ran(out) =>
        var output := Trim(out.GetOr(""), WhitespacesAndNewlines);
        if output == [] then UsageResult(None, Some(ParseFailedMessage))
        else match parseJson(output)
          case Rejected(d) => UsageResult(None, Some("SSH: " + d))
          case Parsed(JObject(json)) =>
            if "error" in json && json["error"].JString? then UsageResult(None, Some(json["error"].s))
            else UsageResult(Some(ParseUsageResponse(json, parseDouble, now)), None)
          case Parsed(_) => UsageResult(None, Some(ParseFailedMessage))
  }

  // ------------------------------------------------------------ properties

  /** Exactly one of the usage and the error is present. */
  lemma FetchUsageExclusive(hasClient: bool, exec: ExecOutcome, parseJson: string -> JsonOutcome,
                            parseDouble: string -> Option<real>, now: string)
    ensures var r := FetchUsage(hasClient, exec, parseJson, parseDouble, now);
      r.usage.Some? != r.error.Some?
  {
  }

  /** Without a client nothing is run and the fixed message comes back. */
  lemma FetchUsageNoClient(exec: ExecOutcome, parseJson: string -> JsonOutcome,
                           parseDouble: string -> Option<real>, now: string)
    ensures FetchUsage(false, exec, parseJson, parseDouble, now) == UsageResult(None, Some(NoClientMessage))
  {
  }

  /** An `"error"` string in the reply is passed through as the error. */
  lemma FetchUsageErrorPassedThrough(text: string, json: map<string, Json>, e: string,
                                     parseJson: string -> JsonOutcome, parseDouble: string -> Option<real>, now: string)
    requires Trim(text, WhitespacesAndNewlines) != []
    requires parseJson(Trim(text, WhitespacesAndNewlines)) == Parsed(JObject(json))
    requires "error" in json && json["error"] == JString(e)
    ensures FetchUsage(true, Ran(Some(text)), parseJson, parseDouble, now) == UsageResult(None, Some(e))
  {
    assert Some(text).GetOr("") == text;
  }

  /** A blank reply, or none at all, is a parse failure. */
  lemma FetchUsageBlankReply(out: Option<string>, parseJson: string -> JsonOutcome,
                             parseDouble: string -> Option<real>, now: string)
    requires Blank(out.GetOr(""), WhitespacesAndNewlines)
    ensures FetchUsage(true, Ran(out), parseJson, parseDouble, now) == UsageResult(None, Some(ParseFailedMessage))
  {
    var _ := TrimSpec(out.GetOr(""), WhitespacesAndNewlines);
  }

  /**
   * The five-hour and seven-day windows default to 0 with no reset time; the
   * Opus and Sonnet windows stay absent.
   */
  lemma UsageDefaults(json: map<string, Json>, parseDouble: string -> Option<real>, now: string)
    ensures var u := ParseUsageResponse(json, parseDouble, now);
      && ("five_hour" !in json ==> u.fiveHour == EmptyPeriod)
      && ("seven_day" !in json ==> u.sevenDay == EmptyPeriod)
      && (u.sevenDayOpus.Some? <==> "seven_day_opus" in json && json["seven_day_opus"].JObject?)
      && (u.sevenDaySonnet.Some? <==> "seven_day_sonnet" in json && json["seven_day_sonnet"].JObject?)
      && u.fetchedAt == now
  {
  }

  /** A percentage string reads as its number: `"42%"` reads as `"42"` would. */
  lemma UtilizationIgnoresPercent(a: string, b: string, parseDouble: string -> Option<real>)
    ensures ParseUtilization(Some(JString(a + "%" + b)), parseDouble) ==
      ParseUtilization(Some(JString(a + b)), parseDouble)
  {
    RemoveCharDropsOne(a, b, '%');
    assert a + "%" + b == a + ['%'] + b;
  }
}
