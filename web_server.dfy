/** The HTTP control surface: substring-based field extraction from the
    request body, the two control handlers and the status JSON. */
module WebServer {
  import opened Ints
  import opened Timing
  import opened ArduinoString
  import opened Hardware
  import opened Peristaltic
  import opened Vacuum

  datatype Option<T> = None | Some(value: T)

  datatype HttpMethod = HttpGet | HttpHead | HttpPost | HttpPut | HttpPatch | HttpDelete | HttpOptions

  const SPEED_KEY: string := "\"speed\":"
  const DURATION_KEY: string := "\"duration\":"

  /** No ',' and no '}' among s[lo..hi]. */
  predicate NoTerminator(s: string, lo: nat, hi: nat) {
    forall k :: lo <= k < hi && k < |s| ==> s[k] != ',' && s[k] != '}'
  }

  /** `c` does not occur in `s` from index `lo` on. */
  predicate Absent(s: string, c: char, lo: nat) {
    forall k :: lo <= k < |s| ==> s[k] != c
  }

  /** The text of a numeric field: from just after the first occurrence of
      `key` up to the first ',' after it or, when no ',' follows, the first
      '}'; none when the key is absent, no terminator follows or the text
      is empty. */
  function FieldText(body: string, key: string): (r: Option<string>)
    ensures r.Some? ==>
      var start := IndexOf(body, key, 0) + |key|;
      && IndexOf(body, key, 0) >= 0
      && |r.value| > 0 && ',' !in r.value
      && start + |r.value| < |body|
      && body[start..start + |r.value|] == r.value
      && body[start + |r.value|] in {',', '}'}
      && (body[start + |r.value|] == '}' ==>
            '}' !in r.value && Absent(body, ',', start))
    ensures IndexOf(body, key, 0) < 0 ==> r.None?
  {
    var keyAt := IndexOf(body, key, 0);
    if keyAt < 0 then None
    else
      var start := keyAt + |key|;
      var comma := FindChar(body, ',', start);
      var end := if comma < 0 then FindChar(body, '}', start) else comma;
      if end > start then
        assert forall k :: start <= k < end ==> body[k] == body[start..end][k - start];
        Some(body[start..end])
      else None
  }

  /** Once the key is found, the field is missing exactly when the text
      after the key is empty: it begins with ',', or no ',' follows and it
      begins with '}' or no '}' follows either. */
  lemma {:induction false} FieldTextMissing(body: string, key: string)
    requires IndexOf(body, key, 0) >= 0
    ensures var start := IndexOf(body, key, 0) + |key|;
      FieldText(body, key).None? <==>
        || start >= |body| || body[start] == ','
        || (Absent(body, ',', start) && (body[start] == '}' || Absent(body, '}', start)))
  {
  }

  /** parseAction: the first of forward, reverse and stop whose literal
      `"action":"<name>"` occurs in the body, else "". */
  function ParseAction(body: string): (r: string)
    ensures r in {"forward", "reverse", "stop", ""}
    ensures r == "forward" <==> Contains(body, "\"action\":\"forward\"")
    ensures r == "reverse" <==>
      !Contains(body, "\"action\":\"forward\"") && Contains(body, "\"action\":\"reverse\"")
    ensures r == "stop" <==>
      && !Contains(body, "\"action\":\"forward\"") && !Contains(body, "\"action\":\"reverse\"")
      && Contains(body, "\"action\":\"stop\"")
  {
    if Contains(body, "\"action\":\"forward\"") then "forward"
    else if Contains(body, "\"action\":\"reverse\"") then "reverse"
    else if Contains(body, "\"action\":\"stop\"") then "stop"
    else ""
  }

  /** parseVacuumAction: the first of start, stop and emergency whose
      literal `"action":"<name>"` occurs in the body, else "". */
  function ParseVacuumAction(body: string): (r: string)
    ensures r in {"start", "stop", "emergency", ""}
    ensures r == "start" <==> Contains(body, "\"action\":\"start\"")
    ensures r == "stop" <==>
      !Contains(body, "\"action\":\"start\"") && Contains(body, "\"action\":\"stop\"")
    ensures r == "emergency" <==>
      && !Contains(body, "\"action\":\"start\"") && !Contains(body, "\"action\":\"stop\"")
      && Contains(body, "\"action\":\"emergency\"")
  {
    if Contains(body, "\"action\":\"start\"") then "start"
    else if Contains(body, "\"action\":\"stop\"") then "stop"
    else if Contains(body, "\"action\":\"emergency\"") then "emergency"
    else ""
  }

  /** parseSpeed: the speed field narrowed to uint16_t and clamped to
      [100, 1023]; without one, the peristaltic pump's current speed. */
  function ParseSpeed(body: string, currentSpeed: U16): (r: U16)
    ensures FieldText(body, SPEED_KEY).None? ==> r == currentSpeed
    ensures FieldText(body, SPEED_KEY).Some? ==> 100 <= r <= 1023
  {
    match FieldText(body, SPEED_KEY)
    case None => currentSpeed
    case Some(text) => Clamp(ToU16(ToInt(text)), 100, 1023)
  }

  /** parseVacuumSpeed: the speed field narrowed to uint16_t, scaled from
      0..1023 to percent, narrowed to uint8_t and clamped to [10, 100];
      without one, the vacuum pump's current percent. */
  function ParseVacuumSpeed(body: string, currentPercent: U8): (r: U8)
    ensures FieldText(body, SPEED_KEY).None? ==> r == currentPercent
    ensures FieldText(body, SPEED_KEY).Some? ==> 10 <= r <= 100
  {
    match FieldText(body, SPEED_KEY)
    case None => currentPercent
    case Some(text) => Clamp(ToU8(ToU16(ToInt(text)) * 100 / 1023), 10, 100)
  }

  /** parseDuration: the duration field narrowed to uint32_t and clamped
      to [1, 300]; without one, the peristaltic pump's run duration. */
  function ParseDuration(body: string, currentDuration: U32): (r: U32)
    ensures FieldText(body, DURATION_KEY).None? ==> r == currentDuration
    ensures FieldText(body, DURATION_KEY).Some? ==> 1 <= r <= 300
  {
    match FieldText(body, DURATION_KEY)
    case None => currentDuration
    case Some(text) => Clamp(ToU32(ToInt(text)), 1, 300)
  }

  /** Where the key is found, `len` characters follow it that are neither
      ',' nor '}', and then a ',' (or a '}' with no ',' anywhere after it),
      FieldText is exactly those characters. */
  lemma {:induction false} FieldTextAt(body: string, key: string, start: nat, len: nat)
    requires IndexOf(body, key, 0) >= 0 && start == IndexOf(body, key, 0) + |key|
    requires 0 < len && start + len < |body|
    requires NoTerminator(body, start, start + len)
    requires || body[start + len] == ','
             || (body[start + len] == '}' && Absent(body, ',', start + len + 1))
    ensures FieldText(body, key) == Some(body[start..start + len])
  {
  }

  /** A field whose text holds neither terminator, written as the first
      occurrence of its key, is extracted as written. With '}' as the
      terminator no ',' may follow, since a later ',' is searched first. */
  lemma {:induction false} FieldTextOfNumber(pre: string, key: string, ds: string, term: char, post: string)
    requires |key| > 0 && IndexOf(pre + key, key, 0) == |pre|
    requires |ds| > 0 && NoTerminator(ds, 0, |ds|)
    requires term == ',' || (term == '}' && ',' !in post)
    ensures FieldText((pre + key) + (ds + [term] + post), key) == Some(ds)
  {
    var head := pre + key;
    var body := head + (ds + [term] + post);
    NumberFieldLayout(head, ds, term, post);
    FirstOccurrenceKept(pre, key, body);
    FieldTextAt(body, key, |head|, |ds|);
  }

  lemma SplitAfterHead(head: string, ds: string, t: string, post: string)
    ensures head + ds + t + post == head + (ds + t + post)
  {
  }

  /** In a body built as head, field text, terminator and rest, the text is
      followed by the terminator, and with '}' as the terminator no ','
      comes after it. */
  lemma {:induction false} NumberFieldLayout(head: string, ds: string, term: char, post: string)
    requires NoTerminator(ds, 0, |ds|)
    requires term == ',' || (term == '}' && ',' !in post)
    ensures var body := head + (ds + [term] + post);
      var end := |head| + |ds|;
      && |body| == end + 1 + |post|
      && body[..|head|] == head
      && body[|head|..end] == ds
      && NoTerminator(body, |head|, end)
      && body[end] == term
      && (term == '}' ==> Absent(body, ',', end + 1))
  {
    var body := head + (ds + [term] + post);
    var end := |head| + |ds|;
    assert body[|head|..] == ds + [term] + post;
    assert body[|head|..end] == body[|head|..][..|ds|];
    forall k | |head| <= k < end ensures body[k] != ',' && body[k] != '}' {
      assert body[k] == ds[k - |head|];
    }
    if term == '}' {
      forall k | end < k < |body| ensures body[k] != ',' {
        assert body[k] == post[k - end - 1];
      }
    }
  }

  /** The text of a long as a client writes it: String(v) holds neither
      terminator, and toInt reads it back as v. */
  lemma {:induction false} ClientNumberText(v: int)
    requires LONG_MIN <= v <= LONG_MAX
    ensures var text := SignedDecimalString(v);
      && |text| > 0 && NoTerminator(text, 0, |text|)
      && ToInt(text) == v
  {
    var text := SignedDecimalString(v);
    ToIntOfSignedDecimalString(v, []);
    assert text + [] == text;
  }

  /** A client's speed v reaches the peristaltic pump narrowed to uint16_t
      and clamped to [100, 1023]; a negative speed wraps first. */
  lemma {:induction false} ParseSpeedOfClientField(pre: string, v: int, term: char, post: string, currentSpeed: U16)
    requires IndexOf(pre + SPEED_KEY, SPEED_KEY, 0) == |pre|
    requires term == ',' || (term == '}' && ',' !in post)
    requires LONG_MIN <= v <= LONG_MAX
    ensures ParseSpeed(pre + SPEED_KEY + SignedDecimalString(v) + [term] + post, currentSpeed)
         == Clamp(v % U16_LIMIT, 100, 1023)
  {
    ClientNumberText(v);
    SplitAfterHead(pre + SPEED_KEY, SignedDecimalString(v), [term], post);
    FieldTextOfNumber(pre, SPEED_KEY, SignedDecimalString(v), term, post);
  }

  /** A client's duration reaches the pump clamped to [1, 300]: 0 becomes a
      one-second timed run, and a negative duration wraps to a huge
      uint32_t and becomes the longest run, 300 seconds. */
  lemma {:induction false} ParseDurationOfClientField(pre: string, v: int, term: char, post: string, currentDuration: U32)
    requires IndexOf(pre + DURATION_KEY, DURATION_KEY, 0) == |pre|
    requires term == ',' || (term == '}' && ',' !in post)
    requires LONG_MIN <= v <= LONG_MAX
    ensures ParseDuration(pre + DURATION_KEY + SignedDecimalString(v) + [term] + post, currentDuration)
         == if v < 0 then 300 else Clamp(v, 1, 300)
  {
    ClientNumberText(v);
    SplitAfterHead(pre + DURATION_KEY, SignedDecimalString(v), [term], post);
    FieldTextOfNumber(pre, DURATION_KEY, SignedDecimalString(v), term, post);
    DurationNarrowing(v);
  }

  /** The uint32_t narrowing sends every negative long above 300. */
  lemma DurationNarrowing(v: int)
    requires LONG_MIN <= v <= LONG_MAX
    ensures Clamp(ToU32(v), 1, 300) == if v < 0 then 300 else Clamp(v, 1, 300)
  {
    if v < 0 {
      assert ToU32(v) == v + U32_LIMIT;
    }
  }

  /** A client's vacuum speed v becomes clamp(uint8_t(uint16_t(v) * 100 /
      1023), 10, 100): a raw speed in 0..2618 becomes the percent it stands
      for, 1023..2618 gives 100, and from 2619 on the uint8_t narrowing
      wraps, so 2660 is read as 10%, not 100%. */
  lemma {:induction false} ParseVacuumSpeedOfClientField(pre: string, v: int, term: char, post: string, currentPercent: U8)
    requires IndexOf(pre + SPEED_KEY, SPEED_KEY, 0) == |pre|
    requires term == ',' || (term == '}' && ',' !in post)
    requires LONG_MIN <= v <= LONG_MAX
    ensures var r := ParseVacuumSpeed(pre + SPEED_KEY + SignedDecimalString(v) + [term] + post, currentPercent);
      && r == Clamp(ToU8((v % U16_LIMIT) * 100 / 1023), 10, 100)
      && (0 <= v <= 2618 ==> r == Clamp(v * 100 / 1023, 10, 100))
      && (1023 <= v <= 2618 ==> r == 100)
      && (v == 2660 ==> r == 10)
  {
    var body := pre + SPEED_KEY + SignedDecimalString(v) + [term] + post;
    var raw := v % U16_LIMIT;
    ClientNumberText(v);
    SplitAfterHead(pre + SPEED_KEY, SignedDecimalString(v), [term], post);
    FieldTextOfNumber(pre, SPEED_KEY, SignedDecimalString(v), term, post);
    assert ParseVacuumSpeed(body, currentPercent) == Clamp(ToU8(raw * 100 / 1023), 10, 100);
    VacuumPercentNarrowing(raw);
    if 0 <= v <= 2660 {
      assert raw == v;
    }
  }

  /** The percent computed from a raw uint16_t speed, before and after
      the clamp to [10, 100]. */
  lemma VacuumPercentNarrowing(raw: U16)
    ensures raw <= 2618 ==> ToU8(raw * 100 / 1023) == raw * 100 / 1023
    ensures 1023 <= raw <= 2618 ==> ToU8(raw * 100 / 1023) >= 100
    ensures raw == 2660 ==> ToU8(raw * 100 / 1023) == 4
    ensures raw <= 2618 ==> Clamp(ToU8(raw * 100 / 1023), 10, 100) == Clamp(raw * 100 / 1023, 10, 100)
    ensures 1023 <= raw <= 2618 ==> Clamp(ToU8(raw * 100 / 1023), 10, 100) == 100
    ensures raw == 2660 ==> Clamp(ToU8(raw * 100 / 1023), 10, 100) == 10
  {
    var q := raw * 100 / 1023;
    assert q * 1023 <= raw * 100 < q * 1023 + 1023;
    if raw == 2660 {
      assert q == 260;
    }
  }
}

module WebHandlers {
  import opened Ints
  import opened Timing
  import opened ArduinoString
  import opened Hardware
  import opened Peristaltic
  import opened Vacuum
  import opened WebServer

  /** The JSON text of every control reply. */
  function JsonReply(success: bool, message: string): (r: string)
    ensures |r| >= 14 + |message|
    ensures r[..12] == "{\"success\": " && (r[12] == 't' <==> success)
    ensures r[|r| - |message| - 2..] == message + "\"}"
  {
    var head := "{\"success\": " + (if success then "true" else "false") + ", \"message\": \"";
    var r := head + (message + "\"}");
    assert r[..12] == head[..12] && r[12] == head[12];
    assert r[|head|..] == message + "\"}";
    r
  }

  /** " for N seconds" after a started run with a nonzero duration. */
  function DurationSuffix(duration: U32): (r: string)
    ensures r == [] <==> duration == 0
  {
    if duration > 0 then " for " + DecimalString(duration) + " seconds" else ""
  }

  /** The number in the suffix reads back as the duration of the run. */
  lemma DurationSuffixReadsBack(duration: U32)
    requires 0 < duration <= LONG_MAX
    ensures var r := DurationSuffix(duration);
      |r| > 5 && r[..5] == " for " && ToInt(r[5..]) == duration
  {
    var r := DurationSuffix(duration);
    assert r[..5] == " for " && r[5..] == DecimalString(duration) + " seconds";
    ToIntOfDecimalString(duration, " seconds");
  }

  /** The status JSON always opens by reporting success. */
  const STATUS_HEAD: string := "{\"success\": true,"

  /** One pump's entry in the status JSON. */
  datatype PumpReport = PumpReport(state: string, speed: nat, speedPercent: nat,
                                   remainingTime: nat, isTimedRun: bool)

  /** The status JSON's speedPercent: speed * 100 / 255, rounded down. */
  function SpeedPercent(speed: nat): (r: nat)
    ensures r * 255 <= speed * 100 < r * 255 + 255
  {
    speed * 100 / 255
  }

  /** The 255 divisor makes speedPercent exceed 100 for every peristaltic
      speed from 258 on, up to 401 at full duty; a vacuum percent of 100
      reports 39. */
  lemma SpeedPercentRange(speed: nat)
    ensures SpeedPercent(speed) > 100 <==> speed >= 258
    ensures speed == 512 ==> SpeedPercent(speed) == 200
    ensures speed == 1023 ==> SpeedPercent(speed) == 401
    ensures speed == 100 ==> SpeedPercent(speed) == 39
  {
    var r := SpeedPercent(speed);
    if speed >= 258 {
      assert r * 255 + 255 > 25800;
    }
  }

  function PumpStateName(s: PumpState): (r: string)
    ensures r in {"stopped", "forward", "reverse"}
    ensures (r == "stopped") == (s == PumpStopped)
    ensures (r == "forward") == (s == PumpForward)
  {
    match s
    case PumpStopped => "stopped"
    case PumpForward => "forward"
    case PumpReverse => "reverse"
  }

  function VacuumStateName(s: VacuumPumpState): (r: string)
    ensures r in {"stopped", "running"}
    ensures (r == "stopped") == (s == VacuumStopped)
  {
    match s
    case VacuumStopped => "stopped"
    case VacuumRunning => "running"
  }

  /** The labels of a pump's status entry, each opened by its ','. */
  const SPEED_LABEL: string := ",\"speed\": "
  const PERCENT_LABEL: string := ",\"speedPercent\": "
  const REMAINING_LABEL: string := ",\"remainingTime\": "
  const TIMED_LABEL: string := ",\"isTimedRun\": "

  /** The fields of a pump's entry after its state, closed by '}'; each
      tail below starts at one label. */
  function EntryFields(r: PumpReport): (f: string)
    ensures |f| >= 1 && f[|f| - 1] == '}'
  {
    var t4 := TimedTail(r);
    var t3 := RemainingTail(r);
    assert t3[|t3| - 1] == t4[|t4| - 1];
    var t2 := PercentTail(r);
    assert t2[|t2| - 1] == t3[|t3| - 1];
    SPEED_LABEL + (DecimalString(r.speed) + t2)
  }

  function PercentTail(r: PumpReport): string {
    PERCENT_LABEL + (DecimalString(r.speedPercent) + RemainingTail(r))
  }

  function RemainingTail(r: PumpReport): string {
    REMAINING_LABEL + (DecimalString(r.remainingTime) + TimedTail(r))
  }

  function TimedTail(r: PumpReport): string {
    TIMED_LABEL + TimedFlag(r.isTimedRun)
  }

  function TimedFlag(timed: bool): string {
    if timed then "true}" else "false}"
  }

  /** One pump's entry: the state name first, the whole entry in braces. */
  function ReportJson(r: PumpReport): (json: string)
    ensures |json| >= 12 + |r.state|
    ensures json[..11] == "{\"state\": \"" && json[11..11 + |r.state|] == r.state
    ensures json[|json| - 1] == '}'
  {
    var tail := "\"" + EntryFields(r);
    var json := "{\"state\": \"" + (r.state + tail);
    assert json[..11] == "{\"state\": \"" && json[11..] == r.state + tail;
    assert json[11..11 + |r.state|] == (r.state + tail)[..|r.state|];
    json
  }

  /** What a reader of the status text finds right after the first
      occurrence of `key`; None when it is absent. */
  function TextAfter(json: string, key: string): Option<string>
  {
    var i := IndexOf(json, key, 0);
    if i < 0 then None else Some(json[i + |key|..])
  }

  /** The decimal number a reader finds right after the first occurrence
      of `key`. */
  function NumberAfter(json: string, key: string): Option<nat>
  {
    match TextAfter(json, key)
    case None => None
    case Some(t) => Some(DecimalValue(LeadingDigits(t)))
  }

  /** Every ',' of `head` is told apart from `key` by the character j
      places after it, still inside `head`. */
  predicate CommasDiffer(head: string, key: string, j: nat)
    requires j < |key|
  {
    forall k :: 0 <= k < |head| && head[k] == ',' ==> k + j < |head| && head[k + j] != key[j]
  }

  /** A label that starts with ',' and differs from every earlier ','
      is first found where it is written. */
  lemma {:induction false} LabelAhead(head: string, key: string, rest: string, j: nat)
    requires j < |key| && key[0] == ','
    requires CommasDiffer(head, key, j)
    ensures IndexOf(head + (key + rest), key, 0) == |head|
  {
    var s := head + (key + rest);
    forall k | 0 <= k < |head|
      ensures !OccursAt(s, key, k)
    {
      assert s[k] == head[k];
      if head[k] == ',' {
        assert s[k + j] == head[k + j];
        NotOccursAt(s, key, k, j);
      } else {
        NotOccursAt(s, key, k, 0);
      }
    }
    OccursAtSlice(s, key, |head|);
    assert s[|head|..|head| + |key|] == key;
  }

  /** Appending a label l and a digit run keeps every ',' told apart from
      `key`, when l's own ',' is told apart too. */
  lemma {:induction false} CommasDifferStep(head: string, l: string, ds: string, key: string, j: nat)
    requires j < |key| && j < |l| && l[j] != key[j]
    requires forall i :: 0 < i < |l| ==> l[i] != ','
    requires AllDigits(ds)
    requires CommasDiffer(head, key, j)
    ensures CommasDiffer(head + l + ds, key, j)
  {
    var s := head + l + ds;
    forall k | 0 <= k < |s| && s[k] == ','
      ensures k + j < |s| && s[k + j] != key[j]
    {
      if k < |head| {
        assert s[k] == head[k] && s[k + j] == head[k + j];
      } else if k < |head| + |l| {
        assert s[k] == l[k - |head|];
        assert k == |head|;
        assert s[k + j] == l[j];
      } else {
        assert false;
      }
    }
  }

  lemma Regroup(a: string, l: string, d: string, t: string)
    ensures a + (l + (d + t)) == a + l + d + t
  {
  }

  lemma DropHead(a: string, l: string, t: string)
    ensures (a + (l + t))[|a| + |l|..] == t
  {
  }

  /** A label that is found first is followed by what was written after it. */
  lemma {:induction false} TextAfterLabel(head: string, key: string, rest: string, j: nat)
    requires j < |key| && key[0] == ','
    requires CommasDiffer(head, key, j)
    ensures TextAfter(head + (key + rest), key) == Some(rest)
  {
    LabelAhead(head, key, rest, j);
    DropHead(head, key, rest);
  }

  /** A number written after a label that is found first reads back. */
  lemma {:induction false} NumberAfterLabel(head: string, key: string, n: nat, rest: string, j: nat)
    requires j < |key| && key[0] == ','
    requires CommasDiffer(head, key, j)
    requires rest == [] || !IsDigit(rest[0])
    ensures NumberAfter(head + (key + (DecimalString(n) + rest)), key) == Some(n)
  {
    TextAfterLabel(head, key, DecimalString(n) + rest, j);
    LeadingDigitsOfDigits(DecimalString(n), rest);
  }

  predicate NoComma(head: string) {
    forall k :: 0 <= k < |head| ==> head[k] != ','
  }

  /** The speed follows the first speed label. */
  lemma {:induction false} SpeedReadsBack(head: string, r: PumpReport)
    requires NoComma(head)
    ensures NumberAfter(head + EntryFields(r), SPEED_LABEL) == Some(r.speed)
  {
    NumberAfterLabel(head, SPEED_LABEL, r.speed, PercentTail(r), 0);
  }

  /** The speedPercent follows the first speedPercent label: the speed
      label's ',' differs from it at index 7. */
  lemma {:induction false} PercentReadsBack(head: string, r: PumpReport)
    requires NoComma(head)
    ensures NumberAfter(head + EntryFields(r), PERCENT_LABEL) == Some(r.speedPercent)
  {
    var d1 := DecimalString(r.speed);
    Regroup(head, SPEED_LABEL, d1, PercentTail(r));
    CommasDifferStep(head, SPEED_LABEL, d1, PERCENT_LABEL, 7);
    NumberAfterLabel(head + SPEED_LABEL + d1, PERCENT_LABEL, r.speedPercent, RemainingTail(r), 7);
  }

  /** The remaining time follows the first remainingTime label: every
      earlier label differs from it at index 2. */
  lemma {:induction false} RemainingReadsBack(head: string, r: PumpReport)
    requires NoComma(head)
    ensures NumberAfter(head + EntryFields(r), REMAINING_LABEL) == Some(r.remainingTime)
  {
    var d1, d2 := DecimalString(r.speed), DecimalString(r.speedPercent);
    var a2 := head + SPEED_LABEL + d1;
    Regroup(head, SPEED_LABEL, d1, PercentTail(r));
    Regroup(a2, PERCENT_LABEL, d2, RemainingTail(r));
    CommasDifferStep(head, SPEED_LABEL, d1, REMAINING_LABEL, 2);
    CommasDifferStep(a2, PERCENT_LABEL, d2, REMAINING_LABEL, 2);
    NumberAfterLabel(a2 + PERCENT_LABEL + d2, REMAINING_LABEL, r.remainingTime, TimedTail(r), 2);
  }

  /** The timed-run flag and the closing '}' follow the first isTimedRun
      label. */
  lemma {:induction false} TimedReadsBack(head: string, r: PumpReport)
    requires NoComma(head)
    ensures TextAfter(head + EntryFields(r), TIMED_LABEL)
            == Some(if r.isTimedRun then "true}" else "false}")
  {
    var d1, d2, d3 := DecimalString(r.speed), DecimalString(r.speedPercent), DecimalString(r.remainingTime);
    var a2 := head + SPEED_LABEL + d1;
    var a3 := a2 + PERCENT_LABEL + d2;
    var a4 := a3 + REMAINING_LABEL + d3;
    Regroup(head, SPEED_LABEL, d1, PercentTail(r));
    Regroup(a2, PERCENT_LABEL, d2, RemainingTail(r));
    Regroup(a3, REMAINING_LABEL, d3, TimedTail(r));
    CommasDifferStep(head, SPEED_LABEL, d1, TIMED_LABEL, 2);
    CommasDifferStep(a2, PERCENT_LABEL, d2, TIMED_LABEL, 2);
    CommasDifferStep(a3, REMAINING_LABEL, d3, TIMED_LABEL, 2);
    TextAfterLabel(a4, TIMED_LABEL, TimedFlag(r.isTimedRun), 2);
  }

  /** A reader of a pump's status entry finds, after each label, the
      value the report holds: the speed, the speedPercent and the
      remaining time as decimal numbers, and `true}` after the timed-run
      label exactly when the report is of a timed run. */
  lemma {:induction false} ReportJsonReadsBack(r: PumpReport)
    requires ',' !in r.state
    ensures var json := ReportJson(r);
      && NumberAfter(json, SPEED_LABEL) == Some(r.speed)
      && NumberAfter(json, PERCENT_LABEL) == Some(r.speedPercent)
      && NumberAfter(json, REMAINING_LABEL) == Some(r.remainingTime)
      && TextAfter(json, TIMED_LABEL) == Some(if r.isTimedRun then "true}" else "false}")
  {
    var head := "{\"state\": \"" + r.state + "\"";
    Regroup("{\"state\": \"", r.state, "\"", EntryFields(r));
    assert ReportJson(r) == head + EntryFields(r);
    forall k | 0 <= k < |head| ensures head[k] != ',' {
      if 11 <= k < 11 + |r.state| {
        assert head[k] == r.state[k - 11];
      }
    }
    SpeedReadsBack(head, r);
    PercentReadsBack(head, r);
    RemainingReadsBack(head, r);
    TimedReadsBack(head, r);
  }

  class WebServerManager {
    const pump: PeristalticPump
    const vacuumPump: VacuumPump

    /** Both pumps keep their invariants and drive the same board. */
    ghost predicate Valid()
      reads this, pump, vacuumPump
    {
      pump.Valid() && vacuumPump.Valid() && pump.board == vacuumPump.board
    }

    constructor (pumpInstance: PeristalticPump, vacuumPumpInstance: VacuumPump)
      requires pumpInstance.Valid() && vacuumPumpInstance.Valid()
      requires pumpInstance.board == vacuumPumpInstance.board
      ensures pump == pumpInstance && vacuumPump == vacuumPumpInstance && Valid()
    {
      pump := pumpInstance;
      vacuumPump := vacuumPumpInstance;
    }

    /** The peristaltic pump's status entry; remaining time and the timed
        flag are only reported for a timed run that is still turning. */
    function PeristalticReport(now: U32): (r: PumpReport)
      reads this, pump
      ensures r.isTimedRun <==> pump.isTimedRun && pump.currentState != PumpStopped
      ensures pump.Valid() ==> r.isTimedRun == pump.isTimedRun
      ensures r.remainingTime <= pump.runDuration
      ensures !r.isTimedRun ==> r.remainingTime == 0
      ensures r.isTimedRun ==> (r.remainingTime == 0 <==> pump.TimedRunExpired(now))
      ensures r.isTimedRun ==> r.remainingTime == pump.GetRemainingTime(now)
      ensures r.speed == pump.currentSpeed && r.state == PumpStateName(pump.currentState)
      ensures r.speedPercent == SpeedPercent(pump.currentSpeed)
    {
      var timed := pump.GetIsTimedRun() && pump.GetCurrentState() != PumpStopped;
      PumpReport(PumpStateName(pump.GetCurrentState()), pump.GetCurrentSpeed(),
                 SpeedPercent(pump.GetCurrentSpeed()),
                 if timed then pump.GetRemainingTime(now) else 0, timed)
    }

    /** The vacuum pump's status entry, on the same rule. */
    function VacuumReport(now: U32): (r: PumpReport)
      reads this, vacuumPump
      ensures r.isTimedRun <==> vacuumPump.isTimedRun && vacuumPump.currentState != VacuumStopped
      ensures vacuumPump.Valid() ==> r.isTimedRun == vacuumPump.isTimedRun
      ensures r.remainingTime <= vacuumPump.runDuration
      ensures !r.isTimedRun ==> r.remainingTime == 0
      ensures r.isTimedRun ==> (r.remainingTime == 0 <==> vacuumPump.TimedRunExpired(now))
      ensures r.isTimedRun ==> r.remainingTime == vacuumPump.GetRemainingTime(now)
      ensures r.speed == vacuumPump.currentSpeedPercent
      ensures r.speedPercent == SpeedPercent(vacuumPump.currentSpeedPercent)
      ensures r.state == VacuumStateName(vacuumPump.currentState)
    {
      var timed := vacuumPump.GetIsTimedRun() && vacuumPump.GetCurrentState() != VacuumStopped;
      PumpReport(VacuumStateName(vacuumPump.GetCurrentState()), vacuumPump.GetCurrentSpeed(),
                 SpeedPercent(vacuumPump.GetCurrentSpeed()),
                 if timed then vacuumPump.GetRemainingTime(now) else 0, timed)
    }

    /** generateStatusJSON: the success flag, then both pumps' entries. */
    function StatusJson(now: U32): (json: string)
      reads this, pump, vacuumPump
      ensures |json| > |STATUS_HEAD| && json[..|STATUS_HEAD|] == STATUS_HEAD
    {
      var entries := "\"pump\": " + ReportJson(PeristalticReport(now)) + ","
                     + "\"vacuum\": " + ReportJson(VacuumReport(now)) + "}";
      assert (STATUS_HEAD + entries)[..|STATUS_HEAD|] == STATUS_HEAD;
      STATUS_HEAD + entries
    }

    /** handleControl: POST only; forward and reverse run the peristaltic
        pump at the parsed speed and duration, stop stops it at the parsed
        speed with duration 0, and anything else is a bad request. */
    method HandleControl(httpMethod: HttpMethod, body: string, now: U32) returns (code: nat, reply: string)
      requires Valid()
      modifies pump, pump.board`stby, pump.board`ain1, pump.board`ain2, pump.board`dutyA
      ensures Valid()
      ensures httpMethod != HttpPost ==>
        code == 405 && reply == JsonReply(false, "Method not allowed")
        && unchanged(pump) && unchanged(pump.board)
      ensures httpMethod == HttpPost && ParseAction(body) == "" ==>
        code == 400 && reply == JsonReply(false, "Invalid operation")
        && unchanged(pump) && unchanged(pump.board)
      ensures httpMethod == HttpPost && ParseAction(body) == "stop" ==>
        && code == 200 && reply == JsonReply(true, "Stopped")
        && pump.currentState == PumpStopped && pump.runDuration == 0
        && pump.currentSpeed == ParseSpeed(body, old(pump.currentSpeed))
        && !pump.isTimedRun && pump.lastDuty == 0 && pump.board.dutyA == 0
        && !pump.board.ain1 && !pump.board.ain2 && pump.board.stby == old(pump.board.stby)
        && pump.pumpStartTime == old(pump.pumpStartTime)
      ensures httpMethod == HttpPost && ParseAction(body) in {"forward", "reverse"} ==>
        var speed := ParseSpeed(body, old(pump.currentSpeed));
        var duration := ParseDuration(body, old(pump.runDuration));
        && code == 200
        && reply == JsonReply(true, (if ParseAction(body) == "forward" then "Forward started"
                                     else "Reverse started") + DurationSuffix(duration))
        && pump.currentState == (if ParseAction(body) == "forward" then PumpForward else PumpReverse)
        && pump.currentSpeed == speed && pump.runDuration == duration
        && pump.isTimedRun == (duration > 0) && pump.lastDuty == speed
        && pump.board.dutyA == speed && pump.board.stby
        && pump.board.ain1 == (ParseAction(body) == "forward") && pump.board.ain2 == !pump.board.ain1
        && pump.pumpStartTime == (if duration > 0 then now else old(pump.pumpStartTime))
    {
      if httpMethod != HttpPost {
        return 405, JsonReply(false, "Method not allowed");
      }
      var action := ParseAction(body);
      var speed := ParseSpeed(body, pump.GetCurrentSpeed());
      var duration := ParseDuration(body, pump.GetRunDuration());

      if action == "forward" {
        pump.ControlPump(PumpForward, speed, duration, now := now);
        code, reply := 200, JsonReply(true, "Forward started" + DurationSuffix(duration));
      } else if action == "reverse" {
        pump.ControlPump(PumpReverse, speed, duration, now := now);
        code, reply := 200, JsonReply(true, "Reverse started" + DurationSuffix(duration));
      } else if action == "stop" {
        pump.ControlPump(PumpStopped, speed, 0, now := now);
        code, reply := 200, JsonReply(true, "Stopped");
      } else {
        code, reply := 400, JsonReply(false, "Invalid operation");
      }
    }

    /** handleVacuumControl: POST only; start runs the vacuum pump at the
        parsed percent and duration (the safety gate, as written, passes
        every command), stop stops it with duration 0, emergency takes
        the emergency path, and anything else is a bad request. The duration
        falls back to the peristaltic pump's. */
    method HandleVacuumControl(httpMethod: HttpMethod, body: string, now: U32) returns (code: nat, reply: string)
      requires Valid()
      modifies vacuumPump, vacuumPump.board`stby, vacuumPump.board`bin1, vacuumPump.board`bin2,
               vacuumPump.board`dutyB
      ensures Valid()
      ensures httpMethod != HttpPost ==>
        code == 405 && reply == JsonReply(false, "Method not allowed")
        && unchanged(vacuumPump) && unchanged(vacuumPump.board)
      ensures httpMethod == HttpPost && ParseVacuumAction(body) == "" ==>
        code == 400 && reply == JsonReply(false, "Invalid vacuum pump operation")
        && unchanged(vacuumPump) && unchanged(vacuumPump.board)
      ensures httpMethod == HttpPost && ParseVacuumAction(body) == "start" ==>
        var speed := ParseVacuumSpeed(body, old(vacuumPump.currentSpeedPercent));
        var duration := ParseDuration(body, pump.runDuration);
        && code == 200 && reply == JsonReply(true, "Vacuum pump started" + DurationSuffix(duration))
        && vacuumPump.currentState == VacuumRunning
        && vacuumPump.currentSpeedPercent == speed && vacuumPump.runDuration == duration
        && vacuumPump.isTimedRun == (duration > 0)
        && vacuumPump.lastDuty == PercentToDuty(Min(speed, SAFE_SPEED_PERCENT))
        && vacuumPump.board.dutyB == vacuumPump.lastDuty
        && vacuumPump.board.bin1 && !vacuumPump.board.bin2 && vacuumPump.board.stby
        && vacuumPump.pumpStartTime == (if duration > 0 then now else old(vacuumPump.pumpStartTime))
      ensures httpMethod == HttpPost && ParseVacuumAction(body) == "stop" ==>
        && code == 200 && reply == JsonReply(true, "Vacuum pump stopped")
        && vacuumPump.currentState == VacuumStopped && vacuumPump.runDuration == 0
        && vacuumPump.currentSpeedPercent == ParseVacuumSpeed(body, old(vacuumPump.currentSpeedPercent))
        && !vacuumPump.isTimedRun && vacuumPump.lastDuty == 0 && !vacuumPump.board.stby
        && vacuumPump.board.dutyB == 0 && !vacuumPump.board.bin1 && !vacuumPump.board.bin2
        && vacuumPump.pumpStartTime == old(vacuumPump.pumpStartTime)
      ensures httpMethod == HttpPost && ParseVacuumAction(body) == "emergency" ==>
        && code == 200 && reply == JsonReply(true, "Emergency stop activated")
        && vacuumPump.currentState == VacuumStopped && !vacuumPump.isTimedRun
        && vacuumPump.lastDuty == 0 && vacuumPump.board.dutyB == 0 && !vacuumPump.board.stby
        && vacuumPump.currentSpeedPercent == old(vacuumPump.currentSpeedPercent)
        && vacuumPump.runDuration == old(vacuumPump.runDuration)
        && vacuumPump.pumpStartTime == old(vacuumPump.pumpStartTime)
        && unchanged(vacuumPump.board`bin1, vacuumPump.board`bin2)
    {
      if httpMethod != HttpPost {
        return 405, JsonReply(false, "Method not allowed");
      }
      var action := ParseVacuumAction(body);
      var speed := ParseVacuumSpeed(body, vacuumPump.GetCurrentSpeed());
      var duration := ParseDuration(body, pump.GetRunDuration());

      if action == "start" {
        vacuumPump.ControlVacuumPump(VacuumRunning, speed, duration, now := now);
        code, reply := 200, JsonReply(true, "Vacuum pump started" + DurationSuffix(duration));
      } else if action == "stop" {
        vacuumPump.ControlVacuumPump(VacuumStopped, speed, 0, now := now);
        code, reply := 200, JsonReply(true, "Vacuum pump stopped");
      } else if action == "emergency" {
        vacuumPump.EmergencyStop();
        code, reply := 200, JsonReply(true, "Emergency stop activated");
      } else {
        code, reply := 400, JsonReply(false, "Invalid vacuum pump operation");
      }
    }
  }
}
