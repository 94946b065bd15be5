/** Token estimates, their calibration, and the compaction of the conversation. */
module Compaction {
  import opened Transcript
  import opened Wrappers

  /** The characters of the first n calls. */
  function CallChars(calls: seq<ToolCall>, n: nat): nat
    requires n <= |calls|
  {
    if n == 0 then 0 else CallChars(calls, n - 1) + |calls[n - 1].name| + |calls[n - 1].arguments|
  }

  function Chars(m: Message): nat {
    |m.content| + if m.Assistant? then CallChars(m.calls, |m.calls|) else 0
  }

  /** The characters of the first n messages. */
  function CharsTo(ms: seq<Message>, n: nat): nat
    requires n <= |ms|
  {
    if n == 0 then 0 else CharsTo(ms, n - 1) + Chars(ms[n - 1])
  }

  function TotalChars(ms: seq<Message>): nat { CharsTo(ms, |ms|) }

  function Tokens(m: Message, ratio: real): int
    requires ratio > 0.0
  {
    (Chars(m) as real / ratio).Floor + 4
  }

  /** The estimate for the first n messages. */
  function EstimateTo(ms: seq<Message>, n: nat, ratio: real): int
    requires ratio > 0.0 && n <= |ms|
  {
    if n == 0 then 0 else EstimateTo(ms, n - 1, ratio) + Tokens(ms[n - 1], ratio)
  }

  function Estimate(ms: seq<Message>, ratio: real): int
    requires ratio > 0.0
  {
    EstimateTo(ms, |ms|, ratio)
  }

  lemma {:induction false} EstimateOfPrefix(a: seq<Message>, b: seq<Message>, n: nat, ratio: real)
    requires ratio > 0.0 && n <= |a|
    ensures EstimateTo(a + b, n, ratio) == EstimateTo(a, n, ratio)
  {
    if n > 0 { EstimateOfPrefix(a, b, n - 1, ratio); }
  }

  lemma {:induction false} EstimateBehind(a: seq<Message>, b: seq<Message>, n: nat, ratio: real)
    requires ratio > 0.0 && n <= |b|
    ensures EstimateTo(a + b, |a| + n, ratio) == Estimate(a, ratio) + EstimateTo(b, n, ratio)
  {
    if n == 0 { EstimateOfPrefix(a, b, |a|, ratio); } else { EstimateBehind(a, b, n - 1, ratio); }
  }

  lemma EstimateIsAdditive(a: seq<Message>, b: seq<Message>, ratio: real)
    requires ratio > 0.0
    ensures Estimate(a + b, ratio) == Estimate(a, ratio) + Estimate(b, ratio)
  {
    EstimateBehind(a, b, |b|, ratio);
  }

  lemma {:induction false} EstimateToBounds(ms: seq<Message>, n: nat, ratio: real)
    requires ratio > 0.0 && 0 < n <= |ms|
    ensures CharsTo(ms, n) as real / ratio + 3.0 * n as real < EstimateTo(ms, n, ratio) as real
    ensures EstimateTo(ms, n, ratio) as real <= CharsTo(ms, n) as real / ratio + 4.0 * n as real
  {
    TokenBounds(ms[n - 1], ratio);
    if n > 1 {
      EstimateToBounds(ms, n - 1, ratio);
      QuotientOfSum(CharsTo(ms, n - 1) as real, Chars(ms[n - 1]) as real, ratio);
    }
  }

  /** For n messages the estimate lies above chars/ratio + 3n and at most at chars/ratio + 4n. */
  lemma EstimateBounds(ms: seq<Message>, ratio: real)
    requires ratio > 0.0 && ms != []
    ensures TotalChars(ms) as real / ratio + 3.0 * |ms| as real < Estimate(ms, ratio) as real
    ensures Estimate(ms, ratio) as real <= TotalChars(ms) as real / ratio + 4.0 * |ms| as real
  {
    EstimateToBounds(ms, |ms|, ratio);
  }

  lemma TokenBounds(m: Message, ratio: real)
    requires ratio > 0.0
    ensures Chars(m) as real / ratio + 3.0 < Tokens(m, ratio) as real <= Chars(m) as real / ratio + 4.0
  {
    var x := Chars(m) as real / ratio;
    assert x - 1.0 < x.Floor as real <= x;
  }

  lemma QuotientOfSum(a: real, b: real, r: real)
    requires r > 0.0
    ensures (a + b) / r == a / r + b / r
  {
  }

  // ------------------------------------------------------------- calibration

  function Clamp(r: real): (c: real)
    ensures 2.5 <= c <= 6.0
  {
    if r < 2.5 then 2.5 else if r > 6.0 then 6.0 else r
  }

  /** The ratio after one observation of how many tokens a prompt really had. */
  function Calibrated(ratio: real, actual: nat, chars: nat): real {
    if actual < 100 then ratio else 0.7 * ratio + 0.3 * Clamp(chars as real / actual as real)
  }

  datatype Observation = Observation(actual: nat, chars: nat)

  function CalibratedBy(ratio: real, seen: seq<Observation>): real {
    if seen == [] then ratio
    else
      var last := seen[|seen| - 1];
      Calibrated(CalibratedBy(ratio, seen[..|seen| - 1]), last.actual, last.chars)
  }

  function Power(x: real, n: nat): real { if n == 0 then 1.0 else x * Power(x, n - 1) }

  /** The ratio never leaves the range it is clamped to. */
  lemma {:induction false} RatioInRange(ratio: real, seen: seq<Observation>)
    requires 2.5 <= ratio <= 6.0
    ensures 2.5 <= CalibratedBy(ratio, seen) <= 6.0
    decreases |seen|
  {
    if seen != [] { RatioInRange(ratio, seen[..|seen| - 1]); }
  }

  /** The observation counts, and says r once it is clamped. */
  predicate Says(o: Observation, r: real) { o.actual >= 100 && Clamp(o.chars as real / o.actual as real) == r }

  lemma {:induction false} OneObservation(ratio: real, o: Observation, r: real)
    requires Says(o, r)
    ensures Calibrated(ratio, o.actual, o.chars) == 0.7 * ratio + 0.3 * r
  {
  }

  /** When every observation says r, the error shrinks by exactly 0.7 each time. */
  lemma {:induction false} ErrorDecays(ratio: real, seen: seq<Observation>, r: real)
    requires forall i | 0 <= i < |seen| :: Says(seen[i], r)
    ensures CalibratedBy(ratio, seen) - r == Power(0.7, |seen|) * (ratio - r)
    decreases |seen|
  {
    if seen != [] {
      var shorter, last := seen[..|seen| - 1], seen[|seen| - 1];
      ErrorDecays(ratio, shorter, r);
      var before, power := CalibratedBy(ratio, shorter), Power(0.7, |shorter|);
      OneObservation(before, last, r);
      ErrorStep(before, r, power, ratio - r);
    }
  }

  lemma ErrorStep(before: real, r: real, power: real, first: real)
    requires before - r == power * first
    ensures 0.7 * before + 0.3 * r - r == (0.7 * power) * first
  {
  }

  // --------------------------------------------------------------- compaction

  const DROPPED := "[CONVERSATION SUMMARY - older turns dropped due to context limit]"

  function SummaryMessage(summary: Option<string>): Message {
    User(if summary.Some? && summary.value != "" then "[CONVERSATION SUMMARY]\n" + summary.value + "\n[END SUMMARY]"
         else DROPPED)
  }

  /** The configuration of a compactor and what it has learnt and done. */
  datatype Meter = Meter(maxContext: nat, threshold: real, maxCompactions: nat, ratio: real, performed: nat)

  predicate Sound(m: Meter) { 2.5 <= m.ratio <= 6.0 && m.threshold >= 0.0 }

  predicate LimitReached(m: Meter) { m.performed >= m.maxCompactions }

  /** The estimate above which the conversation is compacted. */
  function Pressure(maxContext: nat, threshold: real): int { (maxContext as real * threshold).Floor }

  /** The conversation is too long, and something besides the header can go. */
  predicate Compacts(m: Meter, ms: seq<Message>)
    requires Sound(m)
  {
    Estimate(ms, m.ratio) > Pressure(m.maxContext, m.threshold) && Header(ms) != ms
  }

  function Compacted(m: Meter, ms: seq<Message>, summary: Option<string>): seq<Message>
    requires Sound(m)
  {
    if Compacts(m, ms) then Header(ms) + [SummaryMessage(summary)] else ms
  }

  function AfterCompress(m: Meter, ms: seq<Message>): (after: Meter)
    requires Sound(m)
    ensures Sound(after)
  {
    m.(performed := m.performed + if Compacts(m, ms) then 1 else 0)
  }

  function AfterCalibrate(m: Meter, actual: nat, ms: seq<Message>): (after: Meter)
    requires Sound(m)
    ensures Sound(after)
  {
    m.(ratio := Calibrated(m.ratio, actual, TotalChars(ms)))
  }

  class MessageCompactor {
    const maxContext: nat
    const threshold: real
    const maxCompactions: nat
    var ratio: real
    var samples: nat
    var performed: nat

    constructor (maxContext: nat, threshold: real, maxCompactions: nat)
      requires threshold >= 0.0
      ensures Valid() && State() == Meter(maxContext, threshold, maxCompactions, 4.0, 0) && samples == 0
    {
      this.maxContext, this.threshold, this.maxCompactions := maxContext, threshold, maxCompactions;
      ratio, samples, performed := 4.0, 0, 0;
    }

    predicate Valid()
      reads this
    {
      2.5 <= ratio <= 6.0 && threshold >= 0.0
    }

    function State(): (m: Meter)
      reads this
      ensures Valid() <==> Sound(m)
    {
      Meter(maxContext, threshold, maxCompactions, ratio, performed)
    }

    method EstimateTokens(ms: seq<Message>) returns (total: int)
      requires Valid()
      ensures total == Estimate(ms, ratio)
    {
      total := 0;
      for i := 0 to |ms|
        invariant total == EstimateTo(ms, i, ratio)
      {
        var chars := |ms[i].content|;
        if ms[i].Assistant? {
          var calls := ms[i].calls;
          for j := 0 to |calls|
            invariant chars == |ms[i].content| + CallChars(calls, j)
          {
            chars := chars + |calls[j].name| + |calls[j].arguments|;
          }
        }
        total := total + (chars as real / ratio).Floor + 4;
      }
    }

    method Calibrate(actual: nat, ms: seq<Message>)
      requires Valid()
      modifies this`ratio, this`samples
      ensures Valid() && State() == AfterCalibrate(old(State()), actual, ms)
      ensures samples == old(samples) + if actual < 100 then 0 else 1
    {
      if actual < 100 { return; }
      var chars := 0;
      for i := 0 to |ms|
        invariant chars == CharsTo(ms, i)
      {
        chars := chars + |ms[i].content|;
        if ms[i].Assistant? {
          var calls := ms[i].calls;
          var before := chars;
          for j := 0 to |calls|
            invariant chars == before + CallChars(calls, j)
          {
            chars := chars + |calls[j].name| + |calls[j].arguments|;
          }
        }
      }
      var real_ratio := chars as real / actual as real;
      if real_ratio > 6.0 { real_ratio := 6.0; }
      if real_ratio < 2.5 { real_ratio := 2.5; }
      ratio := 0.7 * ratio + 0.3 * real_ratio;
      samples := samples + 1;
    }

    /** Under pressure everything after the header gives way to one summary. */
    method Compress(ms: seq<Message>, summary: Option<string>) returns (result: seq<Message>)
      requires Valid()
      modifies this`performed
      ensures Valid() && State() == AfterCompress(old(State()), ms)
      ensures result == Compacted(old(State()), ms, summary)
    {
      var count := EstimateTokens(ms);
      if count <= Pressure(maxContext, threshold) { return ms; }
      var header := Header(ms);
      if |header| == |ms| { return ms; }
      result := header + [SummaryMessage(summary)];
      performed := performed + 1;
    }
  }

  /** Above the threshold, and with something behind the leading messages, just these and one summary stay, and one
      more compaction is counted; in any other case nothing changes. */
  lemma {:induction false} CompressTells(m: Meter, ms: seq<Message>, summary: Option<string>)
    requires Sound(m)
    ensures var result, after := Compacted(m, ms, summary), AfterCompress(m, ms);
      if Estimate(ms, m.ratio) > (m.maxContext as real * m.threshold).Floor && exists k | 0 <= k < |ms| :: !Leads(ms[k])
      then
        && after == m.(performed := m.performed + 1)
        && 0 < |result| <= |ms| && result[|result| - 1].User?
        && (forall k | 0 <= k < |result| - 1 :: Leads(ms[k]) && result[k] == ms[k])
        && !Leads(ms[|result| - 1])
      else result == ms && after == m
  {
    HeaderIsAll(ms);
    HeaderTells(ms);
  }

  lemma {:induction false} HeaderTells(ms: seq<Message>)
    ensures Header(ms) <= ms && forall k | 0 <= k < |Header(ms)| :: Leads(ms[k])
    ensures |Header(ms)| < |ms| ==> !Leads(ms[|Header(ms)|])
  {
  }

  lemma {:induction false} HeaderIsAll(ms: seq<Message>)
    ensures Header(ms) == ms <==> forall k | 0 <= k < |ms| :: Leads(ms[k])
  {
    if Header(ms) == ms { assert HeaderEnd(ms, 0) == |ms|; }
  }

  /** The summary is in the message that stands for what was dropped; without one the message says that it is
      missing. */
  lemma SummaryTells(summary: Option<string>)
    ensures var content := SummaryMessage(summary).content;
      if summary.Some? && summary.value != "" then
        exists before, after :: content == before + summary.value + after
      else content == DROPPED
  {
    if summary.Some? && summary.value != "" {
      assert SummaryMessage(summary).content == "[CONVERSATION SUMMARY]\n" + summary.value + "\n[END SUMMARY]";
    }
  }

  /** Small prompts teach nothing; any other moves the ratio three tenths of the way to what it says, within the range
      of the clamp, and changes nothing else. */
  lemma CalibrateTells(m: Meter, actual: nat, ms: seq<Message>)
    requires Sound(m)
    ensures actual < 100 ==> AfterCalibrate(m, actual, ms) == m
    ensures actual >= 100 ==>
      var seen := TotalChars(ms) as real / actual as real;
      var told := if seen < 2.5 then 2.5 else if seen > 6.0 then 6.0 else seen;
      AfterCalibrate(m, actual, ms) == m.(ratio := m.ratio + 0.3 * (told - m.ratio))
  {
  }

  /** The characters of a message are those of its content and of the names and arguments of its calls. */
  lemma CharsTell(m: Message, call: ToolCall)
    ensures !m.Assistant? ==> Chars(m) == |m.content|
    ensures m.Assistant? ==>
      Chars(m.(calls := m.calls + [call])) == Chars(m) + |call.name| + |call.arguments| && Chars(m) >= |m.content|
    ensures m.Assistant? && m.calls == [] ==> Chars(m) == |m.content|
  {
    if m.Assistant? { CallCharsOfPrefix(m.calls, call, |m.calls|); }
  }

  lemma {:induction false} CallCharsOfPrefix(calls: seq<ToolCall>, call: ToolCall, n: nat)
    requires n <= |calls|
    ensures CallChars(calls + [call], n) == CallChars(calls, n)
  {
    if n > 0 { CallCharsOfPrefix(calls, call, n - 1); }
  }

  /** A compacted transcript is legal and keeps its header. */
  lemma CompactedIsLegal(ms: seq<Message>, h: seq<Message>, summary: Option<string>)
    requires Legal(ms) && h <= ms && forall m | m in h :: Leads(m)
    ensures Legal(Header(ms) + [SummaryMessage(summary)]) && h <= Header(ms) + [SummaryMessage(summary)]
  {
    HeaderIsLegal(Header(ms));
    LegalText(Header(ms), SummaryMessage(summary));
    HeaderGrows(h, ms);
  }
}
