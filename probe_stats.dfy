/**
 * The probe run of `main`: one outcome per OPTIONS request (the RTT in
 * milliseconds of the reply, or nothing), folded into counters and the
 * list of RTTs, and the summary printed at the end: packets sent and
 * received, loss percentage, and min/max/avg RTT.
 */
module ProbeStats {
  import opened Wrappers

  /** The number of requests a run sends (NUM_REQUESTS). */
  const NumRequests: nat := 10

  /** The pause in seconds after each attempt, before the next one starts (REQUEST_INTERVAL). */
  const RequestInterval: real := 0.5

  function Sum(s: seq<real>): real
  {
    if s == [] then 0.0 else Sum(s[..|s| - 1]) + s[|s| - 1]
  }

  /** The RTTs of the successful attempts, in the order of the attempts. */
  function Successes(outcomes: seq<Option<real>>): seq<real>
  {
    if outcomes == [] then []
    else
      Successes(outcomes[..|outcomes| - 1]) +
      match outcomes[|outcomes| - 1]
      case Some(rtt) => [rtt]
      case None => []
  }

  /** The number of attempts that got no reply. */
  function Failures(outcomes: seq<Option<real>>): nat
  {
    if outcomes == [] then 0
    else Failures(outcomes[..|outcomes| - 1]) + if outcomes[|outcomes| - 1].None? then 1 else 0
  }

  /** The state `main` accumulates: its four counters and `rtt_list`. */
  datatype Tally = Tally(sent: nat, succeeded: nat, failed: nat, totalRtt: real, rtts: seq<real>)

  /** What the counters must agree on after every attempt. */
  predicate Consistent(t: Tally)
  {
    t.sent == t.succeeded + t.failed && t.succeeded == |t.rtts| && t.totalRtt == Sum(t.rtts)
  }

  /** The tally a run over `outcomes` should end with. */
  function TallyOf(outcomes: seq<Option<real>>): (t: Tally)
    ensures Consistent(t)
  {
    var rtts := Successes(outcomes);
    SuccessesAndFailuresCount(outcomes);
    Tally(|outcomes|, |rtts|, Failures(outcomes), Sum(rtts), rtts)
  }

  /**
   * The loop of `main`: for each attempt, a reply adds its RTT to the
   * total, counts a success and appends the RTT to the list; no reply
   * counts a failure; every attempt counts as sent.
   */
  method RunProbes(outcomes: seq<Option<real>>) returns (t: Tally)
    ensures t == TallyOf(outcomes)
    ensures Consistent(t)
  {
    var totalRtt := 0.0;
    var sent, succeeded, failed := 0, 0, 0;
    var rttList: seq<real> := [];
    var i := 0;
    while i < |outcomes|
      invariant i <= |outcomes|
      invariant sent == i && sent == succeeded + failed
      invariant rttList == Successes(outcomes[..i]) && succeeded == |rttList|
      invariant failed == Failures(outcomes[..i])
      invariant totalRtt == Sum(rttList)
    {
      assert outcomes[..i + 1][..i] == outcomes[..i];
      match outcomes[i] {
        case Some(rtt) =>
          totalRtt := totalRtt + rtt;
          succeeded := succeeded + 1;
          rttList := rttList + [rtt];
        case None =>
          failed := failed + 1;
      }
      sent := sent + 1;
      i := i + 1;
    }
    assert outcomes[..i] == outcomes;
    t := Tally(sent, succeeded, failed, totalRtt, rttList);
  }

  /** Every success and every failure is one attempt. */
  lemma {:induction false} SuccessesAndFailuresCount(outcomes: seq<Option<real>>)
    ensures |Successes(outcomes)| + Failures(outcomes) == |outcomes|
  {
    if outcomes != [] {
      SuccessesAndFailuresCount(outcomes[..|outcomes| - 1]);
    }
  }

  /** An RTT is in the list exactly when some attempt replied with it. */
  lemma {:induction false} SuccessesMembers(outcomes: seq<Option<real>>, x: real)
    ensures x in Successes(outcomes) <==> Some(x) in outcomes
  {
    if outcomes != [] {
      var init := outcomes[..|outcomes| - 1];
      SuccessesMembers(init, x);
      assert outcomes == init + [outcomes[|outcomes| - 1]];
    }
  }

  /**
   * Later attempts only append: the RTT list of a run's first `i`
   * attempts is a prefix of the RTT list after its first `j >= i`.
   */
  lemma {:induction false} SuccessesGrowByAppending(outcomes: seq<Option<real>>, i: nat, j: nat)
    requires i <= j <= |outcomes|
    ensures |Successes(outcomes[..i])| <= |Successes(outcomes[..j])|
    ensures Successes(outcomes[..i]) == Successes(outcomes[..j])[..|Successes(outcomes[..i])|]
  {
    if i < j {
      SuccessesGrowByAppending(outcomes, i, j - 1);
      assert outcomes[..j][..j - 1] == outcomes[..j - 1];
    }
  }

  /** The smallest RTT, as Python's `min` returns it. */
  function Min(s: seq<real>): (m: real)
    requires |s| > 0
    ensures m in s && forall x :: x in s ==> m <= x
  {
    if |s| == 1 then s[0]
    else
      var m := Min(s[1..]);
      assert forall x :: x in s ==> x == s[0] || x in s[1..];
      if s[0] <= m then s[0] else m
  }

  /** The largest RTT, as Python's `max` returns it. */
  function Max(s: seq<real>): (m: real)
    requires |s| > 0
    ensures m in s && forall x :: x in s ==> x <= m
  {
    if |s| == 1 then s[0]
    else
      var m := Max(s[1..]);
      assert forall x :: x in s ==> x == s[0] || x in s[1..];
      if s[0] >= m then s[0] else m
  }

  /** A sum of `|s|` values each within `[lo, hi]` lies within `[|s| * lo, |s| * hi]`. */
  lemma {:induction false} SumBounds(s: seq<real>, lo: real, hi: real)
    requires forall x :: x in s ==> lo <= x <= hi
    ensures |s| as real * lo <= Sum(s) <= |s| as real * hi
  {
    if s != [] {
      var init := s[..|s| - 1];
      assert forall x :: x in init ==> x in s;
      SumBounds(init, lo, hi);
      assert s[|s| - 1] in s;
    }
  }

  lemma QuotientBounds(a: real, n: real, lo: real, hi: real)
    requires n > 0.0 && n * lo <= a <= n * hi
    ensures lo <= a / n <= hi
  {
    assert a / n * n == a;
  }

  /** min/max/avg of the RTTs of a run. */
  datatype RttStats = RttStats(min: real, max: real, avg: real)

  /** The summary of a run; `rtt` is absent when no attempt got a reply. */
  datatype Report =
    | NoResponses
    | Summary(sent: nat, received: nat, lossPercent: real, rtt: Option<RttStats>)

  /** `((sent - received) / sent) * 100`. */
  function LossPercent(sent: nat, received: nat): (p: real)
    requires 0 < sent && received <= sent
    ensures 0.0 <= p <= 100.0
    ensures p * sent as real == (sent - received) as real * 100.0
    ensures p == 0.0 <==> received == sent
    ensures p == 100.0 <==> received == 0
  {
    var p := ((sent - received) as real / sent as real) * 100.0;
    QuotientBounds((sent - received) as real, sent as real, 0.0, 1.0);
    assert (sent - received) as real / sent as real * sent as real == (sent - received) as real;
    p
  }

  /** min, max and `total / count` of a non-empty list of RTTs. */
  function RttSummary(rtts: seq<real>, total: real): (r: RttStats)
    requires |rtts| > 0 && total == Sum(rtts)
    ensures r.min in rtts && r.max in rtts
    ensures forall x :: x in rtts ==> r.min <= x <= r.max
    ensures r.min <= r.avg <= r.max
    ensures r.avg * |rtts| as real == total
  {
    var lo, hi := Min(rtts), Max(rtts);
    SumBounds(rtts, lo, hi);
    QuotientBounds(total, |rtts| as real, lo, hi);
    RttStats(lo, hi, total / |rtts| as real)
  }

  /**
   * The summary of a run, with the zero-success case guarded: no
   * statistics at all for an empty run, and 100% loss without RTT
   * statistics when nothing replied.
   */
  function Summarize(t: Tally): (r: Report)
    requires Consistent(t)
    ensures r.NoResponses? <==> t.sent == 0
    ensures r.Summary? ==> r.sent == t.sent && r.received == t.succeeded
    ensures r.Summary? ==> 0.0 <= r.lossPercent <= 100.0
    ensures r.Summary? ==> r.lossPercent == LossPercent(t.sent, t.succeeded)
    ensures r.Summary? ==> (r.lossPercent == 100.0 <==> t.succeeded == 0)
    ensures r.Summary? ==> (r.rtt.Some? <==> t.succeeded > 0)
    ensures r.Summary? && r.rtt.Some? ==>
      var s := r.rtt.value;
      && s.min in t.rtts && s.max in t.rtts
      && (forall x :: x in t.rtts ==> s.min <= x <= s.max)
      && s.min <= s.avg <= s.max
      && s == RttSummary(t.rtts, t.totalRtt)
  {
    if t.sent == 0 then NoResponses
    else
      var loss := LossPercent(t.sent, t.succeeded);
      var stats := if t.succeeded == 0 then None else Some(RttSummary(t.rtts, t.totalRtt));
      Summary(t.sent, t.succeeded, loss, stats)
  }

  /**
   * `main` as a whole: `NUM_REQUESTS` attempts, then the summary; since
   * the run is never empty, the summary is always printed.
   */
  method ProbeMain(outcomes: seq<Option<real>>) returns (r: Report)
    requires |outcomes| == NumRequests
    ensures r.Summary? && r.sent == NumRequests && r.received == |Successes(outcomes)|
    ensures r == Summarize(TallyOf(outcomes))
  {
    var t := RunProbes(outcomes);
    r := Summarize(t);
  }

  /** A run in which no attempt got a reply reports 100% loss and no RTT statistics. */
  lemma {:induction false} NoReplyMeansFullLoss(outcomes: seq<Option<real>>)
    requires |outcomes| > 0
    requires forall i :: 0 <= i < |outcomes| ==> outcomes[i].None?
    ensures Summarize(TallyOf(outcomes)) == Summary(|outcomes|, 0, 100.0, None)
  {
    NoSuccesses(outcomes);
  }

  lemma {:induction false} NoSuccesses(outcomes: seq<Option<real>>)
    requires forall i :: 0 <= i < |outcomes| ==> outcomes[i].None?
    ensures Successes(outcomes) == []
  {
    if outcomes != [] {
      NoSuccesses(outcomes[..|outcomes| - 1]);
    }
  }

  /**
   * A run in which every attempt got a reply within `bound` ms reports
   * 0% loss and min, max and avg within `[0, bound]`.
   */
  lemma AllRepliedWithin(outcomes: seq<Option<real>>, bound: real)
    requires |outcomes| > 0
    requires forall i :: 0 <= i < |outcomes| ==> outcomes[i].Some? && 0.0 <= outcomes[i].value <= bound
    ensures var r := Summarize(TallyOf(outcomes));
      && r.Summary? && r.lossPercent == 0.0 && r.rtt.Some?
      && 0.0 <= r.rtt.value.min && r.rtt.value.max <= bound
      && 0.0 <= r.rtt.value.avg <= bound
  {
    SuccessesAndFailuresCount(outcomes);
    AllSome(outcomes);
    var rtts := Successes(outcomes);
    forall x | x in rtts ensures 0.0 <= x <= bound {
      SuccessesMembers(outcomes, x);
    }
  }

  lemma {:induction false} AllSome(outcomes: seq<Option<real>>)
    requires forall i :: 0 <= i < |outcomes| ==> outcomes[i].Some?
    ensures Failures(outcomes) == 0
  {
    if outcomes != [] {
      AllSome(outcomes[..|outcomes| - 1]);
    }
  }

  /** What lines 126-133 do as written: the division at line 127 has only the `sent > 0` guard. */
  datatype SummaryAsWritten = Printed(report: Report) | ZeroDivisionError

  /** The summary as the source computes it, before the zero-success guard. */
  function SummarizeAsWritten(t: Tally): (r: SummaryAsWritten)
    requires Consistent(t)
    ensures t.succeeded > 0 || t.sent == 0 ==> r == Printed(Summarize(t))
  {
    if t.sent > 0 then
      if t.succeeded == 0 then ZeroDivisionError  // total_rtt / total_successful_responses
      else Printed(Summary(t.sent, t.succeeded, LossPercent(t.sent, t.succeeded), Some(RttSummary(t.rtts, t.totalRtt))))
    else Printed(NoResponses)
  }

  /** As written, a non-empty run in which no attempt got a reply divides by zero instead of reporting. */
  lemma {:induction false} AsWrittenDividesByZero(outcomes: seq<Option<real>>)
    requires |outcomes| > 0
    requires forall i :: 0 <= i < |outcomes| ==> outcomes[i].None?
    ensures SummarizeAsWritten(TallyOf(outcomes)) == ZeroDivisionError
  {
    NoSuccesses(outcomes);
  }
}
