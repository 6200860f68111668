/** Properties of whole runs of the page: a speech of n segments played to
    its end, what the stop button leaves behind, the two revisions' handling
    of a second request, and what the buttons and the switch do when used
    twice. */
module Runs {
  import opened Text
  import opened Classifier
  import opened Clips
  import opened Selector
  import opened Timing
  import opened Session
  import opened Events

  /** Running two traces one after the other is running their concatenation. */
  lemma {:induction false} TraceAppend(p: Page, a: seq<Event>, b: seq<Event>)
    ensures Trace(p, a + b) == if Trace(p, a).Some? then Trace(Trace(p, a).value, b) else None
    decreases |a|
  {
    if a == [] {
      assert a + b == b;
    } else {
      assert (a + b)[0] == a[0];
      assert (a + b)[1..] == a[1..] + b;
      if Enabled(p, a[0]) {
        TraceAppend(Step(p, a[0]), a[1..], b);
      }
    }
  }

  /** A trace run after a trace that reaches `q` runs from `q`. */
  lemma TraceThen(p: Page, a: seq<Event>, b: seq<Event>, q: Page)
    requires Trace(p, a) == Some(q)
    ensures Trace(p, a + b) == Trace(q, b)
  {
    TraceAppend(p, a, b);
  }

  /** A trace that starts with an event that can happen. */
  lemma TraceCons(p: Page, e: Event, rest: seq<Event>)
    requires Enabled(p, e)
    ensures Trace(p, [e] + rest) == Trace(Step(p, e), rest)
  {
    assert ([e] + rest)[0] == e;
    assert ([e] + rest)[1..] == rest;
  }

  lemma TraceOne(p: Page, e: Event)
    ensures Trace(p, [e]) == if Enabled(p, e) then Some(Step(p, e)) else None
  {
    assert [e][1..] == [];
  }

  // ---------------------------------------------------------------------------
  // A speech played through

  /** Segment `k` of the speech plays, nothing else is under way, and a frame
      is pending for it. */
  predicate Speaking(p: Page, k: nat)
  {
    p.play.cursor == k && k < p.play.segments
    && p.play.speech == Some(SpeechAudio(p.play.batch, k, false, Level(p.ui.muted, SpeechVolume)))
    && !p.play.cheering && p.play.cheerTimers == 0 && p.play.orphans == 0
    && p.lip.frameArmed
  }

  /** The events of a speech in which every segment plays to its end: each
      segment but the last ends and its interlude times out, then the last
      one ends. */
  function NaturalEvents(picks: seq<(Unit, Unit)>, last: (Unit, Unit)): (r: seq<Event>)
    ensures |r| == 2 * |picks| + 1
  {
    if picks == [] then [SpeechAudioEnded(last.0, last.1)]
    else [SpeechAudioEnded(picks[0].0, picks[0].1), InterludeTimeout] + NaturalEvents(picks[1..], last)
  }

  /** How many interludes a run of events completes. */
  function Interludes(es: seq<Event>): nat
  {
    if es == [] then 0 else (if es[0] == InterludeTimeout then 1 else 0) + Interludes(es[1..])
  }

  lemma {:induction false} InterludesAppend(a: seq<Event>, b: seq<Event>)
    ensures Interludes(a + b) == Interludes(a) + Interludes(b)
  {
    if a == [] {
      assert a + b == b;
    } else {
      assert (a + b)[0] == a[0];
      assert (a + b)[1..] == a[1..] + b;
      InterludesAppend(a[1..], b);
    }
  }

  /** A speech of `|picks| + 1` segments played through has `|picks|`
      interludes. */
  lemma {:induction false} NaturalInterludes(picks: seq<(Unit, Unit)>, last: (Unit, Unit))
    ensures Interludes(NaturalEvents(picks, last)) == |picks|
  {
    if picks != [] {
      var head: seq<Event> := [SpeechAudioEnded(picks[0].0, picks[0].1), InterludeTimeout];
      InterludesAppend(head, NaturalEvents(picks[1..], last));
      assert head[1..][1..] == [];
      NaturalInterludes(picks[1..], last);
    } else {
      assert [SpeechAudioEnded(last.0, last.1)][1..] == [];
    }
  }

  /** A segment that is not the last ends: the speech audio stays paused at
      its end, the cursor moves on and an interlude starts with one timer. */
  lemma SegmentEndsInInterlude(p: Page, k: nat, pick: (Unit, Unit))
    requires Speaking(p, k) && k + 1 < p.play.segments
    ensures Enabled(p, SpeechAudioEnded(pick.0, pick.1))
    ensures var mid := Step(p, SpeechAudioEnded(pick.0, pick.1));
      mid.play.cheering && mid.play.cheerTimers == 1 && !mid.lip.frameArmed
      && mid.play.cursor == k + 1 && mid.play.segments == p.play.segments
      && mid.play.speech == Some(p.play.speech.value.(paused := true)) && mid.play.batch == p.play.batch
      && mid.play.orphans == 0 && mid.ui.muted == p.ui.muted
  {
    var q := p.(play := p.play.(speech := Some(p.play.speech.value.(paused := true))));
    var r := q.(lip := q.lip.(frameArmed := false), play := q.play.(cursor := q.play.cursor + 1));
    assert Step(p, SpeechAudioEnded(pick.0, pick.1)) == MidCheer(r, pick.0, pick.1);
  }

  /** The one timer of an interlude fires while the finished segment's audio
      is paused: the segment at the cursor plays. */
  lemma InterludeResumes(mid: Page, k: nat)
    requires mid.play.cheering && mid.play.cheerTimers == 1 && mid.play.cursor == k && k < mid.play.segments
    requires mid.play.speech.Some? && mid.play.speech.value.paused && mid.play.speech.value.segment < k
    requires mid.play.orphans == 0
    ensures Enabled(mid, InterludeTimeout)
    ensures Speaking(Step(mid, InterludeTimeout), k)
    ensures Step(mid, InterludeTimeout).play.segments == mid.play.segments
    ensures Step(mid, InterludeTimeout).ui.muted == mid.ui.muted
  {
  }

  /** A segment that is not the last ends: an interlude starts; its timeout
      then plays the next segment. */
  lemma SegmentThenInterlude(p: Page, k: nat, pick: (Unit, Unit))
    requires Speaking(p, k) && k + 1 < p.play.segments
    ensures Enabled(p, SpeechAudioEnded(pick.0, pick.1))
    ensures var mid := Step(p, SpeechAudioEnded(pick.0, pick.1));
      mid.play.cheering && !mid.lip.frameArmed && Enabled(mid, InterludeTimeout)
      && Speaking(Step(mid, InterludeTimeout), k + 1)
      && Step(mid, InterludeTimeout).play.segments == p.play.segments
      && Step(mid, InterludeTimeout).ui.muted == p.ui.muted
  {
    SegmentEndsInInterlude(p, k, pick);
    InterludeResumes(Step(p, SpeechAudioEnded(pick.0, pick.1)), k + 1);
  }

  /** The last segment ends: the end sequence runs. */
  lemma LastSegmentEnds(p: Page, pick: (Unit, Unit))
    requires p.play.segments > 0 && Speaking(p, p.play.segments - 1)
    ensures Enabled(p, SpeechAudioEnded(pick.0, pick.1))
    ensures var r := Step(p, SpeechAudioEnded(pick.0, pick.1));
      r.play.cursor == p.play.segments && r.play.segments == p.play.segments
      && !r.play.cheering && !r.lip.frameArmed
      && r.ui.idle && !r.ui.inputDisabled && r.ui.draft == ""
      && r.visual.onEnded && r.visual.onMetadata == ScheduleEndCheer
  {
  }

  /** From segment `k`, the natural events of the remaining segments run to
      the end sequence: the cursor stops at the segment count, the page is
      idle with its input enabled, and the end video's handlers are set. */
  lemma {:induction false} NaturalRunFrom(p: Page, k: nat, picks: seq<(Unit, Unit)>, last: (Unit, Unit))
    requires Speaking(p, k) && k + |picks| + 1 == p.play.segments
    ensures Trace(p, NaturalEvents(picks, last)).Some?
    ensures var r := Trace(p, NaturalEvents(picks, last)).value;
      r.play.cursor == p.play.segments && r.play.segments == p.play.segments && !r.play.cheering
      && r.ui.idle && !r.ui.inputDisabled
      && r.visual.onEnded && r.visual.onMetadata == ScheduleEndCheer
    decreases |picks|
  {
    if picks == [] {
      LastSegmentEnds(p, last);
      TraceOne(p, SpeechAudioEnded(last.0, last.1));
    } else {
      var ended := SpeechAudioEnded(picks[0].0, picks[0].1);
      SegmentThenInterlude(p, k, picks[0]);
      var mid := Step(p, ended);
      var next := Step(mid, InterludeTimeout);
      TraceAppend(p, [ended, InterludeTimeout], NaturalEvents(picks[1..], last));
      assert Trace(p, [ended, InterludeTimeout]) == Some(next) by {
        assert [ended, InterludeTimeout][1..] == [InterludeTimeout];
        TraceOne(mid, InterludeTimeout);
      }
      NaturalRunFrom(next, k + 1, picks[1..], last);
    }
  }

  /** Nothing is under way: the page is idle with its input enabled, no
      request is pending, no speech plays and no interlude runs. */
  predicate Quiet(p: Page)
  {
    p.ui.idle && !p.ui.inputDisabled && p.ui.requests == 0
    && p.play.orphans == 0 && p.play.cheerTimers == 0 && !p.play.cheering
    && (p.play.speech.Some? ==> p.play.speech.value.paused) && OfCurrentArray(p.play)
  }

  lemma InitialQuiet(rev: Revision, origin: string)
    ensures Quiet(Initial(rev, origin)) && Initial(rev, origin).rev == rev
  {
  }

  /** The answer of `n` audios to a request sent from a quiet page. */
  lemma ReceiveStarts(p: Page, n: nat)
    requires p.ui.requests > 0 && n > 0
    requires p.play.orphans == 0 && p.play.cheerTimers == 0 && !p.play.cheering
    requires (p.play.speech.Some? ==> p.play.speech.value.paused) && OfCurrentArray(p.play)
    ensures var r := Receive(p, Delivered(n));
      Speaking(r, 0) && r.play.segments == n && r.rev == p.rev && r.ui.draft == p.ui.draft
      && r.ui.muted == p.ui.muted && r.play.batch == p.play.batch + 1
      && r.ui.requests == p.ui.requests - 1
      && (p.rev == Assets ==> r.ui.idle && !r.ui.inputDisabled)
      && (p.rev == Api ==> r.ui.idle == p.ui.idle && r.ui.inputDisabled == p.ui.inputDisabled)
  {
    var q := p.(ui := p.ui.(requests := p.ui.requests - 1));
    var i := Install(q, n);
    assert i.play.orphans == 0;
    if p.rev == Assets {
      assert Receive(p, Delivered(n)) == i.(ui := i.ui.(idle := true, inputDisabled := false));
    } else {
      assert Receive(p, Delivered(n)) == i;
    }
  }

  /** The events of one request: the prompt typed, Enter, and the answer. */
  function RequestEvents(prompt: string, reply: Reply): seq<Event>
  {
    [Typing(prompt), Enter, Answer(reply)]
  }

  lemma StepTyping(p: Page, text: string)
    requires !p.ui.inputDisabled
    ensures Enabled(p, Typing(text)) && Step(p, Typing(text)) == Typed(p, text)
  {
  }

  lemma StepEnter(p: Page)
    requires !p.ui.inputDisabled
    ensures Enabled(p, Enter) && Step(p, Enter) == Submit(p)
  {
  }

  lemma StepAnswer(p: Page, reply: Reply)
    requires p.ui.requests > 0
    ensures Enabled(p, Answer(reply)) && Step(p, Answer(reply)) == Receive(p, reply)
  {
  }

  /** The answer to the pending request, at the end of a trace. */
  lemma AnswerTrace(p: Page, reply: Reply)
    requires p.ui.requests > 0
    ensures Trace(p, [Answer(reply)]) == Some(Receive(p, reply))
  {
    StepAnswer(p, reply);
    TraceOne(p, Answer(reply));
  }

  /** Typing into the enabled input and pressing Enter. */
  lemma TypeAndEnter(p: Page, prompt: string, rest: seq<Event>)
    requires !p.ui.inputDisabled
    ensures Trace(p, [Typing(prompt), Enter] + rest) == Trace(Submit(Typed(p, prompt)), rest)
  {
    var p1 := Typed(p, prompt);
    assert [Typing(prompt), Enter] + rest == [Typing(prompt)] + ([Enter] + rest);
    StepTyping(p, prompt);
    TraceCons(p, Typing(prompt), [Enter] + rest);
    StepEnter(p1);
    TraceCons(p1, Enter, rest);
  }

  /** On a page with its input enabled and idle, the request's events run
      the input, `generateSpeech` and its answer. */
  lemma RequestTrace(p: Page, prompt: string, reply: Reply)
    requires !p.ui.inputDisabled && p.ui.idle && Trim(prompt) != ""
    ensures Submit(Typed(p, prompt)).ui.requests == p.ui.requests + 1
    ensures Trace(p, RequestEvents(prompt, reply)) == Some(Receive(Submit(Typed(p, prompt)), reply))
  {
    assert RequestEvents(prompt, reply) == [Typing(prompt), Enter] + [Answer(reply)];
    TypeAndEnter(p, prompt, [Answer(reply)]);
    AnswerTrace(Submit(Typed(p, prompt)), reply);
  }

  /** The prompt typed into a quiet page, Enter, and an answer of `n` audios
      start segment 0. assets/js/app.js is idle again at that point, with the
      input enabled and still holding the prompt; api/app.js is busy. */
  lemma RequestSpeaks(p: Page, prompt: string, n: nat)
    requires Quiet(p) && Trim(prompt) != "" && n > 0
    ensures Trace(p, RequestEvents(prompt, Delivered(n))).Some?
    ensures var r := Trace(p, RequestEvents(prompt, Delivered(n))).value;
      Speaking(r, 0) && r.play.segments == n && r.rev == p.rev && r.ui.draft == prompt
      && r.ui.muted == p.ui.muted
      && r.ui.requests == 0 && r.play.batch == p.play.batch + 1
      && (p.rev == Assets ==> r.ui.idle && !r.ui.inputDisabled)
      && (p.rev == Api ==> !r.ui.idle && r.ui.inputDisabled)
  {
    RequestTrace(p, prompt, Delivered(n));
    var p2 := Submit(Typed(p, prompt));
    assert p2.ui.draft == prompt && !p2.ui.idle && p2.ui.inputDisabled && p2.play == p.play && p2.rev == p.rev;
    ReceiveStarts(p2, n);
  }

  /** The whole speech: on a quiet page, typing a prompt, pressing Enter, an
      answer of `n` audios, and every segment ending in its own time finish
      in the end sequence, idle again, with the cursor at `n`. */
  lemma SpeechPlaysThrough(p: Page, prompt: string, picks: seq<(Unit, Unit)>, last: (Unit, Unit))
    requires Quiet(p) && Trim(prompt) != ""
    ensures var n := |picks| + 1;
      var es := RequestEvents(prompt, Delivered(n)) + NaturalEvents(picks, last);
      Trace(p, es).Some?
      && var r := Trace(p, es).value;
         r.play.cursor == n && r.play.segments == n && !r.play.cheering
         && r.ui.idle && !r.ui.inputDisabled && r.visual.onEnded
  {
    var n := |picks| + 1;
    var sent := Submit(Typed(p, prompt));
    var q := Receive(sent, Delivered(n));
    RequestTrace(p, prompt, Delivered(n));
    ReceiveStarts(sent, n);
    var es := RequestEvents(prompt, Delivered(n)) + NaturalEvents(picks, last);
    TraceThen(p, RequestEvents(prompt, Delivered(n)), NaturalEvents(picks, last), q);
    assert Trace(p, es) == Trace(q, NaturalEvents(picks, last));
    NaturalRunFrom(q, 0, picks, last);
    var r := Trace(q, NaturalEvents(picks, last)).value;
    assert r.play.segments == n && !r.ui.inputDisabled;
  }

  lemma RequestNoInterlude(prompt: string, reply: Reply)
    ensures Interludes(RequestEvents(prompt, reply)) == 0
  {
    var es := RequestEvents(prompt, reply);
    assert es == [Typing(prompt), Enter, Answer(reply)];
    assert [Answer(reply)][1..] == [];
    assert Interludes([Answer(reply)]) == 0;
    assert [Enter, Answer(reply)][1..] == [Answer(reply)];
    assert Interludes([Enter, Answer(reply)]) == 0;
    assert es[1..] == [Enter, Answer(reply)];
  }

  /** Such a speech of `n` segments completes exactly `n - 1` interludes. */
  lemma SpeechInterludes(prompt: string, picks: seq<(Unit, Unit)>, last: (Unit, Unit))
    ensures Interludes(RequestEvents(prompt, Delivered(|picks| + 1)) + NaturalEvents(picks, last)) == |picks|
  {
    var start := RequestEvents(prompt, Delivered(|picks| + 1));
    InterludesAppend(start, NaturalEvents(picks, last));
    RequestNoInterlude(prompt, Delivered(|picks| + 1));
    NaturalInterludes(picks, last);
  }

  /** The page as loaded is quiet, so the above holds from it. */
  lemma SpeechPlaysThroughFromLoad(rev: Revision, origin: string, prompt: string,
                                   picks: seq<(Unit, Unit)>, last: (Unit, Unit))
    requires Trim(prompt) != ""
    ensures var es := RequestEvents(prompt, Delivered(|picks| + 1)) + NaturalEvents(picks, last);
      Trace(Initial(rev, origin), es).Some?
      && Trace(Initial(rev, origin), es).value.ui.idle
      && Trace(Initial(rev, origin), es).value.play.cursor == |picks| + 1
  {
    InitialQuiet(rev, origin);
    SpeechPlaysThrough(Initial(rev, origin), prompt, picks, last);
  }

  // ---------------------------------------------------------------------------
  // Stop

  /** Stop moves the cursor to the segment count, so the next `playNext` goes
      straight to the end sequence. */
  lemma StopEndsSequence(p: Page)
    ensures PlayNext(StopClicked(p)) == EndSequence(StopClicked(p))
  {
  }

  /** Stop does not cancel the interlude timer: when it fires after a stop
      pressed during an interlude, the end video comes on, with its end cheer
      and its return to idle, although nothing was playing. */
  lemma StopDuringInterlude(p: Page)
    requires p.play.cheering && p.play.cheerTimers > 0
    ensures Enabled(StopClicked(p), InterludeTimeout)
    ensures var r := Step(StopClicked(p), InterludeTimeout);
      r.visual.onEnded && r.visual.onMetadata == ScheduleEndCheer
      && r.play.speech == StopClicked(p).play.speech
      && !r.play.cheering && !r.lip.frameArmed && r.ui.idle
  {
    var q := StopClicked(p);
    var cheer := if q.play.cheer.Some? then Some(q.play.cheer.value.(paused := true)) else None;
    var t := q.(play := q.play.(cheer := cheer, cheering := false, cheerTimers := q.play.cheerTimers - 1));
    assert CheerTimerFired(q) == EndSequence(t);
  }

  // ---------------------------------------------------------------------------
  // A second request

  /** assets/js/app.js makes the page idle as soon as the first answer is
      installed, so a second Enter sends a second request during the speech;
      its answer replaces the playing segment, which goes on playing unseen.
      api/app.js keeps the input disabled, so the second Enter never reaches
      the page and there is no second answer to receive. */
  lemma SecondRequest(p: Page, prompt: string, n: nat, m: nat)
    requires Quiet(p) && Trim(prompt) != "" && n > 0 && m > 0
    ensures var es := RequestEvents(prompt, Delivered(n)) + [Enter, Answer(Delivered(m))];
      (p.rev == Assets ==>
         Trace(p, es).Some? && Trace(p, es).value.play.orphans == 1
         && Trace(p, es).value.play.speech == Some(SpeechAudio(p.play.batch + 2, 0, false, Level(p.ui.muted, SpeechVolume)))
         && Trace(p, es).value.play.segments == m)
      && (p.rev == Api ==> Trace(p, es).None?)
  {
    var first := RequestEvents(prompt, Delivered(n));
    RequestSpeaks(p, prompt, n);
    TraceAppend(p, first, [Enter, Answer(Delivered(m))]);
    var a := Trace(p, first).value;
    if p.rev == Assets {
      SecondEnterAssets(a, m);
      EnterAnswerTrace(a, Delivered(m));
    } else {
      SecondEnterApi(a, m);
    }
  }

  /** Enter and an answer on the page the first answer leaves, in
      assets/js/app.js. */
  lemma SecondEnterAssets(a: Page, m: nat)
    requires a.rev == Assets && a.ui.idle && !a.ui.inputDisabled
    requires Speaking(a, 0) && a.ui.requests == 0 && Trim(a.ui.draft) != "" && m > 0
    ensures Submit(a).ui.requests == 1
    ensures var r := Receive(Submit(a), Delivered(m));
      r.play.orphans == 1 && r.play.segments == m
      && r.play.speech == Some(SpeechAudio(a.play.batch + 1, 0, false, Level(a.ui.muted, SpeechVolume)))
  {
    var a2 := Submit(a);
    assert a2.ui.requests == 1 && a2.play == a.play && a2.ui.muted == a.ui.muted;
    SecondAnswerOn(a, a2, m);
  }

  /** `SecondAnswer` on `a2`, which differs from `a` only in its controls. */
  lemma SecondAnswerOn(a: Page, a2: Page, m: nat)
    requires a2.play == a.play && a2.ui.muted == a.ui.muted && a2.ui.requests == 1 && m > 0
    requires Speaking(a, 0)
    ensures var r := Receive(a2, Delivered(m));
      r.play.orphans == 1 && r.play.segments == m
      && r.play.speech == Some(SpeechAudio(a.play.batch + 1, 0, false, Level(a.ui.muted, SpeechVolume)))
  {
    SecondAnswer(a2, m);
  }

  /** Enter, then one more event: the event on the page `Submit` leaves. */
  lemma EnterThen(a: Page, e: Event)
    requires !a.ui.inputDisabled
    ensures Trace(a, [Enter, e]) == Trace(Submit(a), [e])
  {
    assert [Enter, e] == [Enter] + [e];
    StepEnter(a);
    TraceCons(a, Enter, [e]);
  }

  /** Enter that sends a request, then its answer. */
  lemma EnterAnswerTrace(a: Page, reply: Reply)
    requires !a.ui.inputDisabled && Submit(a).ui.requests > 0
    ensures Trace(a, [Enter, Answer(reply)]) == Some(Receive(Submit(a), reply))
  {
    EnterThen(a, Answer(reply));
    AnswerTrace(Submit(a), reply);
  }

  /** In api/app.js the input stays disabled during the speech: the Enter
      cannot happen, and neither can an answer, since none is due. */
  lemma SecondEnterApi(a: Page, m: nat)
    requires a.rev == Api && a.ui.inputDisabled && a.ui.requests == 0
    ensures !Enabled(a, Enter) && !Enabled(a, Answer(Delivered(m)))
    ensures Trace(a, [Enter, Answer(Delivered(m))]).None?
  {
  }

  lemma SecondAnswer(a2: Page, m: nat)
    requires a2.ui.requests == 1 && m > 0
    requires a2.play.speech.Some? && !a2.play.speech.value.paused && a2.play.orphans == 0
    requires OfCurrentArray(a2.play)
    ensures Receive(a2, Delivered(m)).play.orphans == 1
    ensures Receive(a2, Delivered(m)).play.speech
      == Some(SpeechAudio(a2.play.batch + 1, 0, false, Level(a2.ui.muted, SpeechVolume)))
    ensures Receive(a2, Delivered(m)).play.segments == m
  {
  }

  // ---------------------------------------------------------------------------
  // An interlude timer left pending

  /** `playNext` a second time at the same index changes nothing: the
      element is already the current speech, whose volume is already set. */
  lemma PlayNextTwice(p: Page)
    requires p.play.cursor < p.play.segments
    ensures PlayNext(PlayNext(p)) == PlayNext(p)
  {
  }

  /** In assets/js/app.js an answer can arrive during an interlude, whose
      timer stop does not cancel. The answer's first segment plays at once
      while the interlude goes on; when the timer fires it ends the
      interlude, finds that segment already current, and leaves it alone:
      still segment 0 of the new array, still playing, nothing replaced. */
  lemma ReplyDuringInterlude(p: Page, n: nat)
    requires p.ui.requests > 0 && n > 0
    requires p.play.cheering && p.play.cheerTimers == 1 && p.play.orphans == 0
    requires p.play.speech.Some? && p.play.speech.value.paused && OfCurrentArray(p.play)
    ensures var r := Receive(p, Delivered(n));
      r.play.cheering && r.play.batch == p.play.batch + 1
      && r.play.speech == Some(SpeechAudio(r.play.batch, 0, false, Level(p.ui.muted, SpeechVolume)))
      && Enabled(r, InterludeTimeout)
      && Speaking(Step(r, InterludeTimeout), 0)
      && Step(r, InterludeTimeout).play.speech == r.play.speech
      && Step(r, InterludeTimeout).lip == r.lip
  {
    ReplyStartsDuringInterlude(p, n);
    PendingTimerFindsCurrent(Receive(p, Delivered(n)));
  }

  /** The answer's first segment plays at once, while the interlude and its
      timer stay. */
  lemma ReplyStartsDuringInterlude(p: Page, n: nat)
    requires p.ui.requests > 0 && n > 0
    requires p.play.cheering && p.play.cheerTimers == 1 && p.play.orphans == 0
    requires p.play.speech.Some? && p.play.speech.value.paused && OfCurrentArray(p.play)
    ensures var r := Receive(p, Delivered(n));
      r.play.cheering && r.play.cheerTimers == 1 && r.play.batch == p.play.batch + 1
      && r.play.cursor == 0 && r.play.segments == n && r.play.orphans == 0 && r.lip.frameArmed
      && r.ui.muted == p.ui.muted
      && r.play.speech == Some(SpeechAudio(r.play.batch, 0, false, Level(p.ui.muted, SpeechVolume)))
  {
  }

  /** An interlude timer that fires while the segment at the cursor already
      plays ends the interlude and leaves that segment playing as it is. */
  lemma PendingTimerFindsCurrent(r: Page)
    requires r.play.cheerTimers == 1 && r.play.cursor < r.play.segments && r.play.orphans == 0
    requires r.play.speech == Some(SpeechAudio(r.play.batch, r.play.cursor, false, Level(r.ui.muted, SpeechVolume)))
    requires r.lip.frameArmed
    ensures Enabled(r, InterludeTimeout)
    ensures Speaking(Step(r, InterludeTimeout), r.play.cursor)
    ensures Step(r, InterludeTimeout).play.speech == r.play.speech
    ensures Step(r, InterludeTimeout).lip == r.lip
  {
    var cheer := if r.play.cheer.Some? then Some(r.play.cheer.value.(paused := true)) else None;
    var t := r.(play := r.play.(cheer := cheer, cheering := false, cheerTimers := 0));
    assert AtCursor(t);
    assert CheerTimerFired(r) == PlayNext(t);
  }

  /** Two interludes' timers pending at once: the second to fire finds the
      segment the first one started, and only takes its own count down. */
  lemma SecondTimerFires(p: Page)
    requires p.play.cheerTimers == 2 && p.play.cursor < p.play.segments
    ensures var m := CheerTimerFired(p);
      Enabled(m, InterludeTimeout) && !m.play.cheering
      && CheerTimerFired(m) == m.(play := m.play.(cheerTimers := 0))
  {
  }

  // ---------------------------------------------------------------------------
  // The buttons twice

  /** A second Enter while the first request is under way changes nothing. */
  lemma SubmitTwice(p: Page)
    ensures Submit(Submit(p)) == Submit(p)
  {
  }

  /** Muting twice restores the page, volumes included. */
  lemma MuteTwice(p: Page)
    requires Inv(p)
    ensures MuteClicked(MuteClicked(p)) == p
  {
  }

  /** Pausing twice restores the page, except that the frame is then pending
      exactly when the speech plays, as the `onplay`/`onpause` handlers leave
      it. */
  lemma PauseTwice(p: Page)
    ensures var r := PauseClicked(PauseClicked(p));
      r == p.(lip := p.lip.(frameArmed := r.lip.frameArmed))
      && (!(p.play.cheering && p.play.cheer.Some?) && p.play.speech.Some? ==>
            r.lip.frameArmed == !p.play.speech.value.paused)
  {
  }

  /** Toggling the music twice sets the ambient to its full level whatever it
      was, so during a speech it undoes the duck to 0.1. */
  lemma MusicTwice(p: Page)
    ensures MusicClicked(MusicClicked(p)) == p.(ui := p.ui.(ambient := Level(!p.ui.musicOn, AmbientFull)))
    ensures p.ui.musicOn && p.ui.ambient == AmbientDucked ==> MusicClicked(MusicClicked(p)).ui.ambient == AmbientFull
  {
  }

  /** The end video's ended handler stays installed after the end sequence,
      so when any later clip that does not loop ends — a tick's clip during
      the next speech, say — the page goes back to the idle clip and the
      ambient back to 0.3 while the speech still plays. */
  lemma ClipEndUndoesDuck(p: Page)
    requires p.visual.onEnded && p.visual.playing && !p.visual.loop
    requires p.visual.src != VideoPath(p.rev, IdleFile(p.rev))
    requires p.ui.musicOn && p.play.speech.Some? && !p.play.speech.value.paused
    ensures var r := VisualEnded(p);
      r.ui.ambient == AmbientFull && r.play == p.play && r.visual.loop
      && r.lip.shape == Closed && r.lip.frameArmed == p.lip.frameArmed
  {
  }

  // ---------------------------------------------------------------------------
  // The switch

  /** In api/app.js the element's `src` is the full URL the clip was switched
      to, so a second switch to the same clip changes nothing. */
  lemma ApiSwitchIdempotent(origin: string, v: Visual, file: string, loop: bool)
    ensures var once := SwitchVideo(Api, origin, v, file, loop);
      SwitchVideo(Api, origin, once, file, loop) == once
  {
    if file != "" && v.src != VideoPath(Api, file) {
      PathHeads(Api, file);
      assert Resolve(origin, VideoPath(Api, file)) == VideoPath(Api, file);
    }
  }

  /** In assets/js/app.js the path given is root-relative but the element
      reports it under the origin, so the guard never sees the clip it shows:
      asking again for the clip now playing restarts it. */
  lemma AssetsSwitchRestarts(origin: string, v: Visual, file: string, loop: bool)
    requires |origin| > 0 && file != ""
    requires v.src == origin + VideoPath(Assets, file) && v.playing
    ensures var r := SwitchVideo(Assets, origin, v, file, loop);
      r.loading && !r.playing && r.src == v.src
  {
    var full := VideoPath(Assets, file);
    assert |v.src| == |origin| + |full|;
    assert v.src != full;
    PathHeads(Assets, file);
    assert Resolve(origin, full) == origin + full;
  }

  // ---------------------------------------------------------------------------
  // The tick's switch rule

  /** In assets/js/app.js a live tick switches only to a new shape and only
      110 ms after the last switch; the new shape and the time are recorded. */
  lemma AssetsSwitchRule(p: Page, now: int, freq: seq<Byte>, time: seq<Byte>, coin: real, u: Unit)
    requires p.rev == Assets && p.lip.frameArmed && |freq| == FrequencyBins && |time| == TimeSamples
    requires !Stale(p) && Switches(p, now, freq, time, coin)
    ensures now - p.lip.lastSwitch >= MinSwitchInterval
    ensures Target(p, now, freq, time, coin) != p.lip.shape
    ensures Tick(p, now, freq, time, coin, u).lip.shape == Target(p, now, freq, time, coin)
    ensures Tick(p, now, freq, time, coin, u).lip.lastSwitch == now
  {
  }

  /** Two switching ticks of assets/js/app.js in a row are at least 110 ms
      apart. */
  lemma AssetsSwitchesSpaced(p: Page, t1: int, f1: seq<Byte>, s1: seq<Byte>, c1: real, u1: Unit,
                             t2: int, f2: seq<Byte>, s2: seq<Byte>, c2: real)
    requires p.rev == Assets && p.lip.frameArmed
    requires |f1| == FrequencyBins && |s1| == TimeSamples && |f2| == FrequencyBins && |s2| == TimeSamples
    requires !Stale(p) && Switches(p, t1, f1, s1, c1)
    requires var q := Tick(p, t1, f1, s1, c1, u1); !Stale(q) && Switches(q, t2, f2, s2, c2)
    ensures t2 - t1 >= MinSwitchInterval
  {
    var q := Tick(p, t1, f1, s1, c1, u1);
    assert q.lip.lastSwitch == t1;
  }

  /** In api/app.js a live tick whose target shape differs switches at once,
      however recent the last switch. */
  lemma ApiShapeChangeSwitches(p: Page, now: int, freq: seq<Byte>, time: seq<Byte>, coin: real, u: Unit)
    requires p.rev == Api && p.lip.frameArmed && |freq| == FrequencyBins && |time| == TimeSamples
    requires !Stale(p) && Target(p, now, freq, time, coin) != p.lip.shape
    ensures Switches(p, now, freq, time, coin)
    ensures Tick(p, now, freq, time, coin, u).lip.shape == Target(p, now, freq, time, coin)
  {
  }

  /** In api/app.js the same shape is switched again, to another clip of it,
      once 110 ms have passed. */
  lemma ApiSameShapeReswitches(p: Page, now: int, freq: seq<Byte>, time: seq<Byte>, coin: real, u: Unit)
    requires p.rev == Api && p.lip.frameArmed && |freq| == FrequencyBins && |time| == TimeSamples
    requires !Stale(p) && Target(p, now, freq, time, coin) == p.lip.shape
    requires now - p.lip.lastSwitch >= MinSwitchInterval
    requires LastUsed(p.lip.memory, p.lip.shape).Some?
    ensures Switches(p, now, freq, time, coin)
    ensures LastUsed(Tick(p, now, freq, time, coin, u).lip.memory, p.lip.shape).Some?
    ensures LastUsed(Tick(p, now, freq, time, coin, u).lip.memory, p.lip.shape)
         != LastUsed(p.lip.memory, p.lip.shape)
  {
  }

  /** After `loadIdleVideo` no shape has a last-used clip and the history is
      empty. */
  lemma LoadIdleForgets(p: Page)
    ensures forall s: Shape :: LastUsed(LoadIdle(p).lip.memory, s).None?
    ensures LoadIdle(p).lip.memory.history == []
  {
  }
}
