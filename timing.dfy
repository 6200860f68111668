/** The timing rules of the lip-sync tick and of the end video, over the
    millisecond clock `Date.now()` and the video's `duration` in seconds. */
module Timing {
  import opened Text
  import opened Clips

  /** `minSwitchInterval`: the least time between two clip switches. */
  const MinSwitchInterval := 110
  /** How long the frequency average must stay under 1.5 before the mouth is
      forced shut. */
  const SilenceHold := 700
  /** The end cheer starts this many seconds before the end video ends. */
  const EndCheerLead := 4.0

  /** The switch rule of the tick: assets/js/app.js demands both enough elapsed
      time and a new shape, api/app.js either of them. */
  function ShouldSwitch(rev: Revision, elapsed: int, changed: bool): bool
  {
    match rev
    case Assets => elapsed >= MinSwitchInterval && changed
    case Api => elapsed >= MinSwitchInterval || changed
  }

  /** The assets rule is the stricter: whatever it lets through the api rule
      lets through, and it never re-switches to the same shape. */
  lemma AssetsRuleStricter(elapsed: int, changed: bool)
    ensures ShouldSwitch(Assets, elapsed, changed) ==> ShouldSwitch(Api, elapsed, changed)
    ensures ShouldSwitch(Assets, elapsed, changed) ==> changed
    ensures !changed ==> (ShouldSwitch(Api, elapsed, changed) <==> elapsed >= MinSwitchInterval)
  {
  }

  /** The silence bookkeeping of one tick: a quiet frame (`silent`) starts the
      silence clock unless it is already running (`lastLowVolumeTime ||= now`,
      so a start time of 0 counts as not running) and forces `closed` once the
      clock has run for more than 700 ms; a loud frame stops the clock. The
      result is the new start time and whether `closed` is forced. */
  function SilenceStep(silent: bool, lowSince: int, now: int): (r: (int, bool))
    ensures !silent ==> r == (0, false)
    ensures silent && lowSince != 0 ==> r.0 == lowSince
    ensures silent && lowSince == 0 ==> r.0 == now
    ensures r.1 <==> silent && now - r.0 > SilenceHold
  {
    if silent then
      var since := if lowSince == 0 then now else lowSince;
      (since, now - since > SilenceHold)
    else (0, false)
  }

  /** The forced-shut verdicts of a series of ticks at the times `times`, all
      of them quiet, starting from the clock `lowSince`. */
  function QuietRun(lowSince: int, times: seq<int>): (r: seq<bool>)
    ensures |r| == |times|
    decreases |times|
  {
    if times == [] then []
    else
      var (since, forced) := SilenceStep(true, lowSince, times[0]);
      [forced] + QuietRun(since, times[1..])
  }

  /** In a run of quiet ticks that starts with the clock stopped, the clock
      starts at the first tick, and a tick forces the mouth shut exactly when
      more than 700 ms have passed since that first tick. */
  lemma {:induction false} QuietRunForcesAfterHold(times: seq<int>)
    requires times != [] && times[0] != 0
    ensures forall k :: 0 <= k < |times| ==>
      (QuietRun(0, times)[k] <==> times[k] - times[0] > SilenceHold)
  {
    var t0 := times[0];
    assert QuietRun(0, times) == [false] + QuietRun(t0, times[1..]);
    QuietRunFrom(t0, times[1..]);
    forall k | 0 <= k < |times|
      ensures QuietRun(0, times)[k] <==> times[k] - t0 > SilenceHold
    {
      if k > 0 {
        assert QuietRun(0, times)[k] == QuietRun(t0, times[1..])[k - 1];
        assert times[1..][k - 1] == times[k];
      }
    }
  }

  /** Once the clock runs, quiet ticks leave it where it started. */
  lemma {:induction false} QuietRunFrom(since: int, times: seq<int>)
    requires since != 0
    ensures forall k :: 0 <= k < |times| ==> (QuietRun(since, times)[k] <==> times[k] - since > SilenceHold)
    decreases |times|
  {
    if times != [] {
      var r := QuietRun(since, times);
      assert r == [times[0] - since > SilenceHold] + QuietRun(since, times[1..]);
      QuietRunFrom(since, times[1..]);
      forall k | 0 <= k < |times| ensures r[k] <==> times[k] - since > SilenceHold {
        if k > 0 {
          assert r[k] == QuietRun(since, times[1..])[k - 1];
          assert times[1..][k - 1] == times[k];
        }
      }
    }
  }

  /** The end cheer of `loadEndVideo`: for a video longer than 4 seconds a
      cheer is scheduled `(duration - 4) * 1000` ms after the metadata
      arrives, which `setTimeout` truncates to whole milliseconds; a shorter
      video gets no cheer. */
  function EndCheerDelay(duration: real): (r: Option<int>)
    requires duration >= 0.0
    ensures r.Some? <==> duration > EndCheerLead
    ensures r.Some? ==>
      (0 <= r.value && r.value as real <= (duration - EndCheerLead) * 1000.0 < r.value as real + 1.0)
  {
    if duration > EndCheerLead then Some(((duration - EndCheerLead) * 1000.0).Floor) else None
  }

  /** The cheer therefore begins within a millisecond of four seconds before
      the video's end, counted from the metadata event. */
  lemma EndCheerLeadsEnd(duration: real)
    requires duration > EndCheerLead
    ensures EndCheerDelay(duration).Some?
    ensures var d := EndCheerDelay(duration).value as real;
      duration * 1000.0 - 4001.0 < d <= duration * 1000.0 - 4000.0
  {
  }
}
