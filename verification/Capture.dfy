/**
 Capturing hidraw reports against deadlines.  The clock counts ticks and moves only during a read; a read takes a
 tick at least, returns by its timeout, and gives nothing only when the whole timeout has passed.
 */
module Capture {
  import opened Common
  import opened Discovery
  import opened DeviceConfig
  import opened DeviceDraft

  /** A report as the stream gives it: an empty read counts as none. */
  type Frame = r: Report | r != [] witness [0]

  datatype Timing = Timing(baseline: int, firstReport: int, silence: int, hardLimit: int)

  /** What a read returned, and when. */
  datatype Reading = Reading(report: Option<Frame>, at: int)

  datatype CaptureError = BadTiming | CaptureTimeout | NoisyCapture | InconsistentCapture

  class Stream {
    var now: int
    ghost var log: seq<Reading>

    constructor (now: int)
      ensures this.now == now && log == []
    {
      this.now, log := now, [];
    }

    method Read(timeout: int) returns (report: Option<Frame>)
      requires timeout > 0
      modifies this
      ensures old(now) < now <= old(now) + timeout
      ensures log == old(log) + [Reading(report, now)]
      ensures report == None ==> now == old(now) + timeout
    {
      var elapsed: int := *;
      if 0 < elapsed <= timeout {
        var frame: Frame :| true;
        now := now + elapsed;
        report := Some(frame);
      } else {
        now := now + timeout;
        report := None;
      }
      log := log + [Reading(report, now)];
    }

    /** Waiting for the user; no report is read meanwhile. */
    method Wait()
      modifies this`now
      ensures now >= old(now)
    {
      var elapsed: int := *;
      now := now + if elapsed > 0 then elapsed else 0;
    }
  }

  // -- What a log says -----------------------------------------------------------------

  predicate Candidate(r: Reading, baseline: set<Frame>) {
    r.report.Some? && r.report.value !in baseline
  }

  /** The candidates of a log. */
  function ReportsIn(log: seq<Reading>, baseline: set<Frame>): (reports: set<Frame>)
    ensures reports !! baseline
  {
    if |log| == 0 then {}
    else
      var last := log[|log| - 1];
      ReportsIn(log[..|log| - 1], baseline) + if Candidate(last, baseline) then {last.report.value} else {}
  }

  lemma {:induction false} ReportsAreCandidates(log: seq<Reading>, baseline: set<Frame>, report: Frame)
    ensures report in ReportsIn(log, baseline) <==> report !in baseline && exists at :: Reading(Some(report), at) in log
  {
    if |log| > 0 {
      var rest, last := log[..|log| - 1], log[|log| - 1];
      ReportsAreCandidates(rest, baseline, report);
      assert log == rest + [last];
      forall at
        ensures Reading(Some(report), at) in log <==>
                Reading(Some(report), at) in rest || last == Reading(Some(report), at)
      {
      }
    }
  }

  /** The end of the silence being waited for: it starts over with every candidate. */
  function SilenceEnd(log: seq<Reading>, baseline: set<Frame>, start: int, silence: int): int {
    if |log| == 0 then start + silence
    else if Candidate(log[|log| - 1], baseline) then log[|log| - 1].at + silence
    else SilenceEnd(log[..|log| - 1], baseline, start, silence)
  }

  /** Every reading came before the hard limit and before the silence waited for was over. */
  predicate Listening(log: seq<Reading>, baseline: set<Frame>, start: int, timing: Timing) {
    |log| > 0 ==>
      && Listening(log[..|log| - 1], baseline, start, timing)
      && log[|log| - 1].at < start + timing.hardLimit
      && log[|log| - 1].at < SilenceEnd(log[..|log| - 1], baseline, start, timing.silence)
  }

  /** When the last reading came. */
  function Instant(log: seq<Reading>, start: int): int {
    if |log| == 0 then start else log[|log| - 1].at
  }

  predicate Increasing(log: seq<Reading>, start: int) {
    |log| > 0 ==> Increasing(log[..|log| - 1], start) && Instant(log[..|log| - 1], start) < log[|log| - 1].at
  }

  lemma {:induction false} EarlierIsSmaller(log: seq<Reading>, start: int, i: nat)
    requires Increasing(log, start) && i < |log|
    ensures start < log[i].at <= Instant(log, start)
  {
    var rest := log[..|log| - 1];
    if i < |log| - 1 {
      EarlierIsSmaller(rest, start, i);
    } else if rest != [] {
      EarlierIsSmaller(rest, start, |rest| - 1);
    }
  }

  /** No candidate came within the silence before its end. */
  lemma {:induction false} SilenceIsAGap(log: seq<Reading>, baseline: set<Frame>, start: int, silence: nat, i: nat)
    requires Increasing(log, start) && i < |log| && Candidate(log[i], baseline)
    ensures log[i].at + silence <= SilenceEnd(log, baseline, start, silence)
  {
    if !Candidate(log[|log| - 1], baseline) {
      SilenceIsAGap(log[..|log| - 1], baseline, start, silence, i);
    } else {
      EarlierIsSmaller(log, start, i);
    }
  }

  // -- One trial -----------------------------------------------------------------------

  /** What the trial's last reading decides: quiet, or a direction that never falls silent. */
  ghost predicate Decided(
      r: Result<set<Frame>, CaptureError>, first: Frame, log: seq<Reading>, baseline: set<Frame>, start: int,
      timing: Timing) {
    |log| > 0 &&
    var kept, last := log[..|log| - 1], log[|log| - 1];
    var end := SilenceEnd(kept, baseline, start, timing.silence);
    var reports := ReportsIn(kept, baseline);
    && Listening(kept, baseline, start, timing)
    && (last.at >= start + timing.hardLimit || last.at >= end)
    && r == if last.at >= start + timing.hardLimit
                && (Candidate(last, baseline) || (reports != {} && last.at < end))
            then Err(NoisyCapture) else Ok({first} + reports)
  }

  /**
   Collect the follow-up reports of a trial whose first report has been read: exactly those read before both
   deadlines.  The trial is noisy only at its hard limit.
   */
  method CollectTrialReports(stream: Stream, baseline: set<Frame>, timing: Timing, first: Frame)
      returns (r: Result<set<Frame>, CaptureError>)
    requires timing.silence > 0 && timing.hardLimit > 0
    modifies stream
    ensures |old(stream.log)| <= |stream.log| && stream.log[..|old(stream.log)|] == old(stream.log)
    ensures stream.now > old(stream.now)
    ensures Decided(r, first, stream.log[|old(stream.log)|..], baseline, old(stream.now), timing)
    ensures Increasing(stream.log[|old(stream.log)|..], old(stream.now))
  {
    var reports := {first};
    ghost var start, kept := stream.now, [];
    var hardDeadline := stream.now + timing.hardLimit;
    var silenceDeadline := stream.now + timing.silence;
    var sawFollowup := false;
    while true
      invariant stream.log == old(stream.log) + kept && stream.now == Instant(kept, start)
      invariant start <= stream.now < hardDeadline && stream.now < silenceDeadline
      invariant Listening(kept, baseline, start, timing) && Increasing(kept, start)
      invariant silenceDeadline == SilenceEnd(kept, baseline, start, timing.silence)
      invariant reports == {first} + ReportsIn(kept, baseline) && (sawFollowup <==> ReportsIn(kept, baseline) != {})
      decreases hardDeadline - stream.now
    {
      var report := stream.Read(Min(hardDeadline, silenceDeadline) - stream.now);
      ghost var more := kept + [Reading(report, stream.now)];
      assert more[..|kept|] == kept;
      assert stream.log[|old(stream.log)|..] == more;
      if stream.now >= hardDeadline {
        if stream.now >= silenceDeadline && (report == None || report.value in baseline) {
          return Ok(reports);
        }
        if (report.Some? && report.value !in baseline) || sawFollowup {
          return Err(NoisyCapture);
        }
        return Ok(reports);
      }
      if stream.now >= silenceDeadline || report == None {
        return Ok(reports);
      }
      if report.value !in baseline {
        reports := reports + {report.value};
        silenceDeadline := stream.now + timing.silence;
        sawFollowup := true;
      }
      kept := more;
    }
  }

  /** The silence is that of the last candidate, when there was one. */
  lemma {:induction false} SilenceFromCandidate(log: seq<Reading>, baseline: set<Frame>, start: int, silence: int)
    requires ReportsIn(log, baseline) != {}
    ensures exists i :: 0 <= i < |log| && Candidate(log[i], baseline)
                        && SilenceEnd(log, baseline, start, silence) == log[i].at + silence
  {
    if Candidate(log[|log| - 1], baseline) {
      assert SilenceEnd(log, baseline, start, silence) == log[|log| - 1].at + silence;
    } else {
      var rest := log[..|log| - 1];
      SilenceFromCandidate(rest, baseline, start, silence);
      var i :| 0 <= i < |rest| && Candidate(rest[i], baseline)
               && SilenceEnd(rest, baseline, start, silence) == rest[i].at + silence;
      assert log[i] == rest[i];
    }
  }

  /** A candidate came less than the silence before an instant. */
  ghost predicate Restless(log: seq<Reading>, baseline: set<Frame>, silence: int, at: int) {
    exists i :: 0 <= i < |log| && Candidate(log[i], baseline) && at < log[i].at + silence
  }

  /**
   What a trial's outcome means: accepted reports are followed by a full silence or have no follow-up at all at
   the hard limit, and a noisy trial has reached its limit with a candidate there or too shortly before.
   */
  lemma OutcomeMeans(r: Result<set<Frame>, CaptureError>, first: Frame, log: seq<Reading>, baseline: set<Frame>,
                     start: int, timing: Timing)
    requires Decided(r, first, log, baseline, start, timing) && Increasing(log, start) && timing.silence > 0
    ensures var kept, last := log[..|log| - 1], log[|log| - 1];
            && (r.Ok? ==>
                  || (!Restless(kept, baseline, timing.silence, last.at) && start + timing.silence <= last.at)
                  || (last.at >= start + timing.hardLimit && r.value == {first} && !Candidate(last, baseline)))
            && (r.Err? ==> r == Err(NoisyCapture) && last.at >= start + timing.hardLimit
                           && (Candidate(last, baseline) || Restless(kept, baseline, timing.silence, last.at)))
  {
    var kept, last := log[..|log| - 1], log[|log| - 1];
    var end := SilenceEnd(kept, baseline, start, timing.silence);
    forall i | 0 <= i < |kept| && Candidate(kept[i], baseline) ensures kept[i].at + timing.silence <= end {
      SilenceIsAGap(kept, baseline, start, timing.silence, i);
    }
    if ReportsIn(kept, baseline) != {} {
      SilenceFromCandidate(kept, baseline, start, timing.silence);
    }
    NoCandidateNoRestart(kept, baseline, start, timing.silence);
  }

  lemma {:induction false} NoCandidateNoRestart(log: seq<Reading>, baseline: set<Frame>, start: int, silence: nat)
    requires Increasing(log, start)
    ensures SilenceEnd(log, baseline, start, silence) >= start + silence
  {
    if |log| > 0 {
      NoCandidateNoRestart(log[..|log| - 1], baseline, start, silence);
      EarlierIsSmaller(log, start, |log| - 1);
    }
  }

  // -- The whole capture ---------------------------------------------------------------

  lemma OneMoreReport(log: seq<Reading>, report: Option<Frame>, at: int)
    ensures ReportsIn(log + [Reading(report, at)], {})
            == ReportsIn(log, {}) + if report.Some? then {report.value} else {}
  {
    assert (log + [Reading(report, at)])[..|log|] == log;
  }

  /** Every report of the baseline period. */
  method CaptureBaseline(stream: Stream, period: int) returns (reports: set<Frame>)
    requires period > 0
    modifies stream
    ensures |old(stream.log)| <= |stream.log| && stream.log[..|old(stream.log)|] == old(stream.log)
    ensures reports == ReportsIn(stream.log[|old(stream.log)|..], {})
    ensures stream.now == old(stream.now) + period
  {
    ghost var kept: seq<Reading> := [];
    var deadline := stream.now + period;
    reports := {};
    while stream.now < deadline
      invariant stream.log == old(stream.log) + kept && stream.now <= deadline
      invariant reports == ReportsIn(kept, {})
    {
      var report := stream.Read(deadline - stream.now);
      OneMoreReport(kept, report, stream.now);
      if report.Some? {
        reports := reports + {report.value};
      }
      kept := kept + [Reading(report, stream.now)];
    }
    assert stream.log[|old(stream.log)|..] == kept;
  }

  /** When a trial began, what was read while waiting for its first report and after it, and the outcome. */
  datatype Trial = Trial(
    start: int,
    waiting: seq<Reading>,
    rest: seq<Reading>,
    outcome: Result<set<Frame>, CaptureError>)

  /** The first candidate before its deadline starts the trial; without one it times out at the deadline. */
  ghost predicate Tried(t: Trial, baseline: set<Frame>, timing: Timing) {
    var deadline := t.start + timing.firstReport;
    if t.outcome.Err? && t.outcome.error == CaptureTimeout then
      && t.rest == []
      && forall i | 0 <= i < |t.waiting| :: Candidate(t.waiting[i], baseline) ==> t.waiting[i].at == deadline
    else
      && |t.waiting| > 0
      && var first := t.waiting[|t.waiting| - 1];
         && Candidate(first, baseline) && first.at < deadline
         && ReportsIn(t.waiting[..|t.waiting| - 1], baseline) == {}
         && Decided(t.outcome, first.report.value, t.rest, baseline, first.at, timing)
  }

  /** Wait for a first candidate before its deadline, and collect what follows it. */
  method CaptureTrial(stream: Stream, baseline: set<Frame>, timing: Timing)
      returns (r: Result<set<Frame>, CaptureError>, ghost waiting: seq<Reading>, ghost trial: seq<Reading>)
    requires timing.firstReport > 0 && timing.silence > 0 && timing.hardLimit > 0
    modifies stream
    ensures stream.log == old(stream.log) + waiting + trial
    ensures Tried(Trial(old(stream.now), waiting, trial, r), baseline, timing)
    ensures r == Err(CaptureTimeout) ==> stream.now == old(stream.now) + timing.firstReport
    ensures r.Ok? ==> r.value != {} && r.value !! baseline
  {
    var deadline := stream.now + timing.firstReport;
    waiting, trial := [], [];
    while stream.now < deadline
      invariant stream.log == old(stream.log) + waiting && stream.now <= deadline
      invariant stream.now < deadline ==> ReportsIn(waiting, baseline) == {}
      invariant forall i | 0 <= i < |waiting| ::
                  Candidate(waiting[i], baseline) ==> waiting[i].at == stream.now == deadline
    {
      var report := stream.Read(deadline - stream.now);
      ghost var before := waiting;
      waiting := before + [Reading(report, stream.now)];
      assert waiting[..|before|] == before;
      if report.Some? && report.value !in baseline && stream.now < deadline {
        ghost var logged := stream.log;
        r := CollectTrialReports(stream, baseline, timing, report.value);
        trial := stream.log[|logged|..];
        assert stream.log == logged + trial;
        return;
      }
    }
    r := Err(CaptureTimeout);
  }

  // -- Sorting -------------------------------------------------------------------------

  /** The order of byte strings. */
  predicate Less(a: Report, b: Report) {
    |b| > 0 && (|a| == 0 || a[0] < b[0] || (a[0] == b[0] && Less(a[1..], b[1..])))
  }

  lemma {:induction false} LessIsTotal(a: Report, b: Report)
    ensures a == b || Less(a, b) || Less(b, a)
  {
    if a != [] && b != [] && a[0] == b[0] {
      LessIsTotal(a[1..], b[1..]);
      assert a == [a[0]] + a[1..] && b == [b[0]] + b[1..];
    }
  }

  lemma {:induction false} LessIsTransitive(a: Report, b: Report, c: Report)
    requires Less(a, b) && Less(b, c)
    ensures Less(a, c)
  {
    if a != [] && a[0] == b[0] == c[0] {
      LessIsTransitive(a[1..], b[1..], c[1..]);
    }
  }

  /** Strictly ascending. */
  predicate Sorted(s: seq<Report>) {
    |s| > 0 ==> (forall r <- s[1..] :: Less(s[0], r)) && Sorted(s[1..])
  }

  function Insert(s: seq<Frame>, f: Frame): seq<Frame> {
    if |s| == 0 then [f] else if Less(f, s[0]) then [f] + s else [s[0]] + Insert(s[1..], f)
  }

  lemma {:induction false} InsertKeepsSorted(s: seq<Frame>, f: Frame)
    requires Sorted(s) && f !in s
    ensures Sorted(Insert(s, f))
    ensures forall r :: r in Insert(s, f) <==> r in s || r == f
  {
    if |s| > 0 {
      if Less(f, s[0]) {
        forall r | r in s ensures Less(f, r) {
          if r != s[0] {
            LessIsTransitive(f, s[0], r);
          }
        }
        assert ([f] + s)[1..] == s;
      } else {
        InsertKeepsSorted(s[1..], f);
        LessIsTotal(f, s[0]);
        assert Insert(s, f)[1..] == Insert(s[1..], f);
        assert s == [s[0]] + s[1..];
      }
    }
  }

  lemma {:induction false} SortedHasNoRepeats(s: seq<Report>)
    requires Sorted(s)
    ensures NoRepeats(s)
  {
    if |s| > 0 {
      SortedHasNoRepeats(s[1..]);
      forall i, j | 0 <= i < j < |s| ensures s[i] != s[j] {
        assert s[j] == s[1..][j - 1];
        if i == 0 {
          LessIsStrict(s[0]);
        } else {
          assert s[i] == s[1..][i - 1];
        }
      }
    }
  }

  lemma {:induction false} LessIsStrict(a: Report)
    ensures !Less(a, a)
  {
    if a != [] {
      LessIsStrict(a[1..]);
    }
  }

  method Sort(reports: set<Frame>) returns (s: seq<Frame>)
    ensures Sorted(s) && NoRepeats(s) && forall r :: r in s <==> r in reports
  {
    s := [];
    var rest := reports;
    while rest != {}
      invariant rest <= reports && Sorted(s) && forall r :: r in s <==> r in reports - rest
    {
      var f :| f in rest;
      InsertKeepsSorted(s, f);
      s := Insert(s, f);
      rest := rest - {f};
    }
    SortedHasNoRepeats(s);
  }

  // -- The whole capture ---------------------------------------------------------------

  predicate AllEqual(trials: seq<set<Frame>>) {
    forall i | 0 <= i < |trials| :: trials[i] == trials[0]
  }

  predicate Candidates(trials: seq<set<Frame>>, baseline: set<Frame>) {
    forall i | 0 <= i < |trials| :: trials[i] != {} && trials[i] !! baseline
  }

  method StableTrialReports(trials: seq<set<Frame>>) returns (r: Result<set<Frame>, CaptureError>)
    requires |trials| > 0
    ensures r == if AllEqual(trials) then Ok(trials[0]) else Err(InconsistentCapture)
  {
    for i := 1 to |trials|
      invariant forall k | 0 <= k < i :: trials[k] == trials[0]
    {
      if trials[i] != trials[0] {
        return Err(InconsistentCapture);
      }
    }
    return Ok(trials[0]);
  }

  /** The readings of the trials, one after another. */
  function ReadingsOf(trials: seq<Trial>): seq<Reading> {
    if |trials| == 0 then []
    else ReadingsOf(trials[..|trials| - 1]) + trials[|trials| - 1].waiting + trials[|trials| - 1].rest
  }

  /** Every trial went by its deadlines. */
  ghost predicate AllTried(trials: seq<Trial>, baseline: set<Frame>, timing: Timing) {
    |trials| > 0 ==> AllTried(trials[..|trials| - 1], baseline, timing) && Tried(trials[|trials| - 1], baseline, timing)
  }

  /** Trial `first`, and every second one after it, gave these reports. */
  predicate Gave(trials: seq<Trial>, first: nat, reports: seq<set<Frame>>) {
    && |trials| >= 2 * |reports| - 1 + first
    && forall i | 0 <= i < |reports| :: trials[2 * i + first].outcome == Ok(reports[i])
  }

  /** The log since `base` is that of the trials, and the trials gave the two lists of report sets. */
  ghost predicate Recorded(log: seq<Reading>, base: seq<Reading>, trials: seq<Trial>, on: seq<set<Frame>>,
                           off: seq<set<Frame>>, baseline: set<Frame>, timing: Timing) {
    && log == base + ReadingsOf(trials) && AllTried(trials, baseline, timing)
    && Gave(trials, 0, on) && Gave(trials, 1, off) && Candidates(on, baseline) && Candidates(off, baseline)
  }

  lemma NothingRecorded(base: seq<Reading>, baseline: set<Frame>, timing: Timing)
    ensures Recorded(base, base, [], [], [], baseline, timing)
  {
  }

  lemma RecordedOneMore(log: seq<Reading>, base: seq<Reading>, trials: seq<Trial>, on: seq<set<Frame>>,
                        off: seq<set<Frame>>, baseline: set<Frame>, timing: Timing, t: Trial)
    requires Recorded(log, base, trials, on, off, baseline, timing) && Tried(t, baseline, timing)
    ensures Recorded(log + t.waiting + t.rest, base, trials + [t], on, off, baseline, timing)
  {
    assert (trials + [t])[..|trials|] == trials;
    assert log + t.waiting + t.rest == base + (ReadingsOf(trials) + t.waiting + t.rest);
  }

  lemma RecordedResult(log: seq<Reading>, base: seq<Reading>, trials: seq<Trial>, on: seq<set<Frame>>,
                       off: seq<set<Frame>>, baseline: set<Frame>, timing: Timing, isOn: bool)
    requires Recorded(log, base, trials, on, off, baseline, timing) && |trials| == |on| + |off| + 1
    requires |off| == if isOn then |on| else |on| - 1
    requires trials[|trials| - 1].outcome.Ok?
    requires trials[|trials| - 1].outcome.value != {} && trials[|trials| - 1].outcome.value !! baseline
    ensures var reports := trials[|trials| - 1].outcome.value;
            if isOn then Recorded(log, base, trials, on + [reports], off, baseline, timing)
            else Recorded(log, base, trials, on, off + [reports], baseline, timing)
  {
  }

  /** One more trial, of the direction whose turn it is. */
  method OneTrial(stream: Stream, baseline: set<Frame>, timing: Timing, isOn: bool,
                  on: seq<set<Frame>>, off: seq<set<Frame>>, ghost base: seq<Reading>, ghost trials: seq<Trial>)
      returns (error: Option<CaptureError>, reports: seq<set<Frame>>, ghost more: seq<Trial>)
    requires timing.firstReport > 0 && timing.silence > 0 && timing.hardLimit > 0
    requires Recorded(stream.log, base, trials, on, off, baseline, timing) && |trials| == |on| + |off|
    requires |off| == if isOn then |on| else |on| - 1
    modifies stream
    ensures |more| == |trials| + 1
    ensures error == None ==> |reports| == |if isOn then on else off| + 1
    ensures error == None ==>
              Recorded(stream.log, base, more, if isOn then reports else on, if isOn then off else reports,
                       baseline, timing)
    ensures error.Some? ==>
              && Recorded(stream.log, base, more, on, off, baseline, timing)
              && more[|trials|].outcome == Err(error.value) && error.value in {CaptureTimeout, NoisyCapture}
  {
    stream.Wait();
    ghost var start := stream.now;
    ghost var waiting, rest;
    var r;
    r, waiting, rest := CaptureTrial(stream, baseline, timing);
    ghost var t := Trial(start, waiting, rest, r);
    RecordedOneMore(old(stream.log), base, trials, on, off, baseline, timing, t);
    more := trials + [t];
    reports := if isOn then on else off;
    if r.Err? {
      error := Some(r.error);
      return;
    }
    RecordedResult(stream.log, base, more, on, off, baseline, timing, isOn);
    reports := reports + [r.value];
    error := None;
  }

  /** Three trials in each direction, an on trial before each off trial; the first error ends them. */
  method CaptureTrials(stream: Stream, baseline: set<Frame>, timing: Timing)
      returns (error: Option<CaptureError>, on: seq<set<Frame>>, off: seq<set<Frame>>, ghost trials: seq<Trial>)
    requires timing.firstReport > 0 && timing.silence > 0 && timing.hardLimit > 0
    modifies stream
    ensures Recorded(stream.log, old(stream.log), trials, on, off, baseline, timing)
    ensures error == None ==> |on| == 3 && |off| == 3 && |trials| == 6
    ensures error.Some? ==> |trials| == |on| + |off| + 1 && trials[|on| + |off|].outcome == Err(error.value)
                            && error.value in {CaptureTimeout, NoisyCapture}
  {
    error, on, off, trials := None, [], [], [];
    ghost var base := stream.log;
    NothingRecorded(base, baseline, timing);
    for number := 0 to 3
      invariant error == None && |on| == number && |off| == number && |trials| == 2 * number
      invariant Recorded(stream.log, base, trials, on, off, baseline, timing)
    {
      var more;
      error, more, trials := OneTrial(stream, baseline, timing, true, on, off, base, trials);
      if error.Some? {
        return;
      }
      on := more;
      error, more, trials := OneTrial(stream, baseline, timing, false, on, off, base, trials);
      if error.Some? {
        return;
      }
      off := more;
    }
  }

  /**
   The reports of each direction: what its three trials agree on, without what both directions share.  The
   result is a valid trigger, sorted, and free of baseline reports.
   */
  method CaptureHidraw(stream: Stream, timing: Timing)
      returns (r: Result<Trigger, CaptureError>, ghost quiet: seq<Reading>, ghost trials: seq<Trial>)
    modifies stream
    ensures r == Err(BadTiming) <==>
              timing.baseline <= 0 || timing.firstReport <= 0 || timing.silence <= 0 || timing.hardLimit <= 0
    ensures stream.log == old(stream.log) + quiet + ReadingsOf(trials) && AllTried(trials, ReportsIn(quiet, {}), timing)
    ensures r.Ok? ==> && r.value.Hidraw? && ValidHidraw(r.value)
                      && Sorted(r.value.onReports) && Sorted(r.value.offReports)
                      && forall f | f in r.value.onReports || f in r.value.offReports :: f !in ReportsIn(quiet, {})
    ensures r.Ok? || r == Err(InconsistentCapture) ==>
              exists on, off ::
                Gave(trials, 0, on) && Gave(trials, 1, off) && |on| == 3 && |off| == 3 && Concludes(r, on, off)
    ensures r.Err? && r.error in {CaptureTimeout, NoisyCapture} ==>
              trials != [] && trials[|trials| - 1].outcome == Err(r.error)
  {
    quiet, trials := [], [];
    if timing.baseline <= 0 || timing.firstReport <= 0 || timing.silence <= 0 || timing.hardLimit <= 0 {
      r := Err(BadTiming);
      return;
    }
    var baseline := CaptureBaseline(stream, timing.baseline);
    quiet := stream.log[|old(stream.log)|..];
    assert stream.log == old(stream.log) + quiet;
    var error, on, off;
    error, on, off, trials := CaptureTrials(stream, baseline, timing);
    if error.Some? {
      r := Err(error.value);
      return;
    }
    r := Conclude(on, off, baseline);
  }

  /** What six trials come to: each direction's reports, or that the directions cannot be told apart. */
  ghost predicate Concludes(r: Result<Trigger, CaptureError>, on: seq<set<Frame>>, off: seq<set<Frame>>)
    requires |on| > 0 && |off| > 0
  {
    if AllEqual(on) && AllEqual(off) && on[0] - off[0] != {} && off[0] - on[0] != {} then
      && r.Ok? && r.value.Hidraw?
      && (forall f :: f in r.value.onReports <==> f in on[0] - off[0])
      && (forall f :: f in r.value.offReports <==> f in off[0] - on[0])
    else r == Err(InconsistentCapture)
  }

  method Conclude(on: seq<set<Frame>>, off: seq<set<Frame>>, ghost baseline: set<Frame>)
    returns (r: Result<Trigger, CaptureError>)
    requires |on| > 0 && |off| > 0 && Candidates(on, baseline) && Candidates(off, baseline)
    ensures Concludes(r, on, off)
    ensures r.Ok? ==> && r.value.Hidraw? && ValidHidraw(r.value)
                      && Sorted(r.value.onReports) && Sorted(r.value.offReports)
                      && forall f | f in r.value.onReports || f in r.value.offReports :: f !in baseline
  {
    var stableOn := StableTrialReports(on);
    var stableOff := StableTrialReports(off);
    if stableOn.Err? || stableOff.Err? {
      return Err(InconsistentCapture);
    }
    var shared := stableOn.value * stableOff.value;
    var onReports, offReports := stableOn.value - shared, stableOff.value - shared;
    assert onReports == on[0] - off[0] && offReports == off[0] - on[0];
    if onReports == {} || offReports == {} || onReports * offReports != {} {
      return Err(InconsistentCapture);
    }
    r := Distinct(onReports, offReports);
  }

  method Distinct(onReports: set<Frame>, offReports: set<Frame>) returns (r: Result<Trigger, CaptureError>)
    requires onReports != {} && offReports != {} && onReports !! offReports
    ensures r.Ok? && r.value.Hidraw? && ValidHidraw(r.value) && Sorted(r.value.onReports) && Sorted(r.value.offReports)
    ensures forall f :: f in r.value.onReports <==> f in onReports
    ensures forall f :: f in r.value.offReports <==> f in offReports
  {
    var on := Sort(onReports);
    var off := Sort(offReports);
    var one :| one in onReports;
    var other :| other in offReports;
    assert one in on && other in off;
    r := Ok(Hidraw(on, off));
  }
}
