/** Everything that can happen to the page, as one event type, and the
    invariant every reachable page keeps. */
module Events {
  import opened Text
  import opened Classifier
  import opened Clips
  import opened Selector
  import opened Timing
  import opened Session

  /** The events: an animation frame with the analyser's snapshot, the clock
      and the tick's draws; media events; timers; the prompt input; the reply
      to a request; and the buttons. */
  datatype Event =
    | Frame(now: int, freq: seq<Byte>, time: seq<Byte>, coin: real, pick: Unit)
    | SpeechAudioEnded(cheerPick: Unit, clipPick: Unit)
    | ReplacedAudioEnded(cheerPick: Unit, clipPick: Unit)
    | InterludeTimeout
    | CheerAudioEnded
    | VisualMetadata(duration: real)
    | EndCheerTimeout(index: nat)
    | VisualClipEnded
    | Typing(text: string)
    | Enter
    | Answer(reply: Reply)
    | PauseButton
    | MuteButton
    | MusicButton
    | StopButton
    | DiceButton(topic: string)

  /** Whether `e` can happen on `p`: a frame only when one is pending, a media
      event only for media that is playing or loading, a timer only when it is
      pending, typing and Enter only in the enabled input, a reply only to a
      request under way. */
  predicate Enabled(p: Page, e: Event)
  {
    match e
    case Frame(_, freq, time, _, _) =>
      p.lip.frameArmed && |freq| == FrequencyBins && |time| == TimeSamples
    case SpeechAudioEnded(_, _) => p.play.speech.Some? && !p.play.speech.value.paused
    case ReplacedAudioEnded(_, _) => p.play.orphans > 0
    case InterludeTimeout => p.play.cheerTimers > 0
    case CheerAudioEnded => p.play.cheer.Some? && !p.play.cheer.value.paused
    case VisualMetadata(duration) => p.visual.loading && duration >= 0.0
    case EndCheerTimeout(k) => k < |p.play.endCheers|
    case VisualClipEnded => p.visual.playing && !p.visual.loop
    case Typing(_) => !p.ui.inputDisabled
    case Enter => !p.ui.inputDisabled
    case Answer(_) => p.ui.requests > 0
    case PauseButton => true
    case MuteButton => true
    case MusicButton => true
    case StopButton => true
    case DiceButton(_) => true
  }

  function Step(p: Page, e: Event): Page
    requires Enabled(p, e)
  {
    match e
    case Frame(now, freq, time, coin, pick) => Tick(p, now, freq, time, coin, pick)
    case SpeechAudioEnded(rc, ru) => SpeechEnded(p, rc, ru)
    case ReplacedAudioEnded(rc, ru) => OrphanEnded(p, rc, ru)
    case InterludeTimeout => CheerTimerFired(p)
    case CheerAudioEnded => CheerEnded(p)
    case VisualMetadata(duration) => MetadataLoaded(p, duration)
    case EndCheerTimeout(k) => EndCheerFired(p, k)
    case VisualClipEnded => VisualEnded(p)
    case Typing(text) => Typed(p, text)
    case Enter => Submit(p)
    case Answer(reply) => Receive(p, reply)
    case PauseButton => PauseClicked(p)
    case MuteButton => MuteClicked(p)
    case MusicButton => MusicClicked(p)
    case StopButton => StopClicked(p)
    case DiceButton(topic) => DiceClicked(p, topic)
  }

  /** The page after the events `es`, or `None` when one of them cannot
      happen where it comes. */
  function Trace(p: Page, es: seq<Event>): Option<Page>
    decreases |es|
  {
    if es == [] then Some(p)
    else if Enabled(p, es[0]) then Trace(Step(p, es[0]), es[1..])
    else None
  }

  // ---------------------------------------------------------------------------
  // The invariant

  /** The tick's part: the history is capped, and a pending frame belongs to
      a speech audio that plays (every pause cancels the frame). */
  predicate LipOk(p: Page)
  {
    |p.lip.memory.history| <= HistoryCap
    && (p.lip.frameArmed ==> p.play.speech.Some? && !p.play.speech.value.paused)
  }

  /** The sequencer's part: an interlude has its cheer and its timer, the
      current speech is one of the segments of the current array at or
      behind the cursor (so `playNext` never meets an element it connected
      before unless it is the current one), and volumes follow the mute
      flag. */
  predicate PlayOk(p: Page)
  {
    (p.play.cheering ==> p.play.cheer.Some? && p.play.cheerTimers > 0)
    && OfCurrentArray(p.play)
    && (p.play.speech.Some? ==>
          p.play.speech.value.segment < p.play.segments && p.play.speech.value.segment <= p.play.cursor
          && p.play.speech.value.volume == Level(p.ui.muted, SpeechVolume))
    && (p.play.cheer.Some? ==> p.play.cheer.value.volume == Level(p.ui.muted, CheerVolume))
  }

  /** The controls' part: the ambient is at 0, 0.1 or 0.3 and silent with the
      music off, and the input is enabled exactly when the page is idle. */
  predicate UiOk(p: Page)
  {
    (p.ui.ambient == 0 || p.ui.ambient == AmbientDucked || p.ui.ambient == AmbientFull)
    && (!p.ui.musicOn ==> p.ui.ambient == 0)
    && (p.ui.idle <==> !p.ui.inputDisabled)
  }

  /** The visual's part: in assets/js/app.js every `src` the page sets is a
      root-relative path, so the element reports it under the page's origin. */
  predicate VisualOk(p: Page)
  {
    p.rev == Assets ==> p.visual.src == "" || p.origin <= p.visual.src
  }

  predicate Inv(p: Page)
  {
    LipOk(p) && PlayOk(p) && UiOk(p) && VisualOk(p)
  }

  /** Switching keeps the visual's part. */
  lemma SwitchKeepsVisualOk(p: Page, file: string, loop: bool)
    requires VisualOk(p)
    ensures VisualOk(p.(visual := Switched(p, file, loop)))
  {
    if p.rev == Assets && file != "" && p.visual.src != VideoPath(Assets, file) {
      var full := VideoPath(Assets, file);
      assert full[0] == '/';
      assert Switched(p, file, loop).src == p.origin + full;
    }
  }

  lemma InitialInv(rev: Revision, origin: string)
    ensures Inv(Initial(rev, origin))
  {
    SwitchKeepsVisualOk(Declared(rev, origin), IdleFile(rev), true);
  }

  lemma LoadIdleKeeps(p: Page)
    requires Inv(p)
    ensures Inv(LoadIdle(p))
  {
    SwitchKeepsVisualOk(p, IdleFile(p.rev), true);
  }

  lemma EndSequenceKeeps(p: Page)
    requires Inv(p)
    ensures Inv(EndSequence(p))
  {
    SwitchKeepsVisualOk(p, EndFile(p.rev), false);
  }

  lemma PlayNextKeeps(p: Page)
    requires Inv(p)
    ensures Inv(PlayNext(p))
  {
    if p.play.cursor >= p.play.segments {
      EndSequenceKeeps(p);
    }
  }

  lemma AdvanceKeeps(p: Page, rCheer: Unit, rClip: Unit)
    requires Inv(p.(lip := p.lip.(frameArmed := false)))
    ensures Inv(Advance(p, rCheer, rClip))
  {
    var q := p.(lip := p.lip.(frameArmed := false), play := p.play.(cursor := p.play.cursor + 1));
    if q.play.cursor < q.play.segments {
      var (m, clip) := RandomVideo(q.rev, q.lip.memory, Closed, rClip);
      SwitchKeepsVisualOk(q, ClipRequest(q.rev, clip.value), false);
    } else {
      EndSequenceKeeps(q);
    }
  }

  lemma TickKeeps(p: Page, now: int, freq: seq<Byte>, time: seq<Byte>, coin: real, u: Unit)
    requires Inv(p) && p.lip.frameArmed && |freq| == FrequencyBins && |time| == TimeSamples
    ensures Inv(Tick(p, now, freq, time, coin, u))
  {
    if !Stale(p) && Switches(p, now, freq, time, coin) {
      var (m, clip) := RandomVideo(p.rev, p.lip.memory, Target(p, now, freq, time, coin), u);
      SwitchKeepsVisualOk(p, ClipRequest(p.rev, clip.value), false);
    }
  }

  lemma InstallKeeps(p: Page, count: nat)
    requires Inv(p) && count > 0
    ensures Inv(Install(p, count))
  {
    var q := p.(play := p.play.(batch := p.play.batch + 1, segments := count, cursor := 0),
                ui := p.ui.(ambient := Level(!p.ui.musicOn, AmbientDucked)));
    assert Install(p, count) == PlayNext(q);
    assert !AtCursor(q);
  }

  lemma ReceivePlayableKeeps(p: Page, reply: Reply)
    requires Inv(p) && p.ui.requests > 0 && Playable(reply)
    ensures Inv(Receive(p, reply))
  {
    var q := p.(ui := p.ui.(requests := p.ui.requests - 1));
    InstallKeeps(q, reply.audios);
    var done := Install(q, reply.audios);
    if p.rev == Assets {
      assert Receive(p, reply) == done.(ui := done.ui.(idle := true, inputDisabled := false));
    } else {
      assert Receive(p, reply) == done;
    }
  }

  lemma ReceiveFailedKeeps(p: Page, reply: Reply)
    requires Inv(p) && p.ui.requests > 0 && !Playable(reply)
    ensures Inv(Receive(p, reply))
  {
    var q := p.(ui := p.ui.(requests := p.ui.requests - 1));
    var done := q.(ui := q.ui.(idle := true, inputDisabled := false));
    if p.rev == Assets {
      LoadIdleKeeps(done);
      assert Receive(p, reply) == LoadIdle(done);
    } else {
      assert Receive(p, reply) == done;
    }
  }

  lemma ReceiveKeeps(p: Page, reply: Reply)
    requires Inv(p) && p.ui.requests > 0
    ensures Inv(Receive(p, reply))
  {
    if Playable(reply) {
      ReceivePlayableKeeps(p, reply);
    } else {
      ReceiveFailedKeeps(p, reply);
    }
  }

  lemma StopKeeps(p: Page)
    requires Inv(p)
    ensures Inv(StopClicked(p))
  {
    SwitchKeepsVisualOk(p, IdleFile(p.rev), true);
  }

  lemma VisualEndedKeeps(p: Page)
    requires Inv(p) && p.visual.playing && !p.visual.loop
    ensures Inv(VisualEnded(p))
  {
    if p.visual.onEnded {
      LoadIdleKeeps(p.(visual := p.visual.(playing := false)));
    }
  }

  lemma SpeechEndedKeeps(p: Page, rc: Unit, ru: Unit)
    requires Inv(p) && p.play.speech.Some? && !p.play.speech.value.paused
    ensures Inv(SpeechEnded(p, rc, ru))
  {
    AdvanceKeeps(p.(play := p.play.(speech := Some(p.play.speech.value.(paused := true)))), rc, ru);
  }

  lemma OrphanEndedKeeps(p: Page, rc: Unit, ru: Unit)
    requires Inv(p) && p.play.orphans > 0
    ensures Inv(OrphanEnded(p, rc, ru))
  {
    AdvanceKeeps(p.(play := p.play.(orphans := p.play.orphans - 1)), rc, ru);
  }

  lemma CheerTimerKeeps(p: Page)
    requires Inv(p) && p.play.cheerTimers > 0
    ensures Inv(CheerTimerFired(p))
  {
    var cheer := if p.play.cheer.Some? then Some(p.play.cheer.value.(paused := true)) else None;
    PlayNextKeeps(p.(play := p.play.(cheer := cheer, cheering := false, cheerTimers := p.play.cheerTimers - 1)));
  }

  lemma CheerEndedKeeps(p: Page)
    requires Inv(p) && p.play.cheer.Some? && !p.play.cheer.value.paused
    ensures Inv(CheerEnded(p))
  {
  }

  lemma MetadataKeeps(p: Page, duration: real)
    requires Inv(p) && p.visual.loading && duration >= 0.0
    ensures Inv(MetadataLoaded(p, duration))
  {
  }

  lemma EndCheerKeeps(p: Page, k: nat)
    requires Inv(p) && k < |p.play.endCheers|
    ensures Inv(EndCheerFired(p, k))
  {
  }

  lemma SubmitKeeps(p: Page)
    requires Inv(p)
    ensures Inv(Submit(p))
  {
  }

  lemma DiceKeeps(p: Page, topic: string)
    requires Inv(p)
    ensures Inv(DiceClicked(p, topic))
  {
    SubmitKeeps(p.(ui := p.ui.(draft := "Give a presidential speech about " + topic + ".")));
  }

  lemma PauseKeeps(p: Page)
    requires Inv(p)
    ensures Inv(PauseClicked(p))
  {
  }

  lemma MuteKeeps(p: Page)
    requires Inv(p)
    ensures Inv(MuteClicked(p))
  {
  }

  lemma MusicKeeps(p: Page)
    requires Inv(p)
    ensures Inv(MusicClicked(p))
  {
  }

  lemma TypedKeeps(p: Page, text: string)
    requires Inv(p) && !p.ui.inputDisabled
    ensures Inv(Typed(p, text))
  {
  }

  /** Every event keeps the invariant. */
  lemma StepKeepsInv(p: Page, e: Event)
    requires Inv(p) && Enabled(p, e)
    ensures Inv(Step(p, e))
  {
    match e
    case Frame(now, freq, time, coin, pick) => TickKeeps(p, now, freq, time, coin, pick);
    case SpeechAudioEnded(rc, ru) => SpeechEndedKeeps(p, rc, ru);
    case ReplacedAudioEnded(rc, ru) => OrphanEndedKeeps(p, rc, ru);
    case InterludeTimeout => CheerTimerKeeps(p);
    case CheerAudioEnded => CheerEndedKeeps(p);
    case VisualMetadata(duration) => MetadataKeeps(p, duration);
    case EndCheerTimeout(k) => EndCheerKeeps(p, k);
    case VisualClipEnded => VisualEndedKeeps(p);
    case Typing(text) => TypedKeeps(p, text);
    case Enter => SubmitKeeps(p);
    case Answer(reply) => ReceiveKeeps(p, reply);
    case PauseButton => PauseKeeps(p);
    case MuteButton => MuteKeeps(p);
    case MusicButton => MusicKeeps(p);
    case StopButton => StopKeeps(p);
    case DiceButton(topic) => DiceKeeps(p, topic);
  }

  /** Every page a trace reaches from a page that keeps the invariant keeps
      it too, so every page reachable from the initial page does. */
  lemma {:induction false} TraceKeepsInv(p: Page, es: seq<Event>)
    requires Inv(p) && Trace(p, es).Some?
    ensures Inv(Trace(p, es).value)
    decreases |es|
  {
    if es != [] {
      StepKeepsInv(p, es[0]);
      TraceKeepsInv(Step(p, es[0]), es[1..]);
    }
  }

  /** On a reachable page a pending animation frame always finds a speech
      audio that plays, so of the tick's three reasons to stop only the
      interlude flag can apply. */
  lemma FramesSkipOnlyInInterludes(rev: Revision, origin: string, es: seq<Event>, now: int,
                                   freq: seq<Byte>, time: seq<Byte>, coin: real, u: Unit)
    requires Trace(Initial(rev, origin), es).Some?
    requires Enabled(Trace(Initial(rev, origin), es).value, Frame(now, freq, time, coin, u))
    ensures Stale(Trace(Initial(rev, origin), es).value) <==> Trace(Initial(rev, origin), es).value.play.cheering
  {
    InitialInv(rev, origin);
    TraceKeepsInv(Initial(rev, origin), es);
  }

  /** Once the end video has installed its ended handler, no event removes
      it. */
  lemma EndedHandlerStays(p: Page, e: Event)
    requires Enabled(p, e) && p.visual.onEnded
    ensures Step(p, e).visual.onEnded
  {
    match e
    case Frame(now, freq, time, coin, pick) =>
    case SpeechAudioEnded(rc, ru) =>
    case ReplacedAudioEnded(rc, ru) =>
    case InterludeTimeout =>
    case CheerAudioEnded =>
    case VisualMetadata(duration) =>
    case EndCheerTimeout(k) =>
    case VisualClipEnded =>
    case Typing(text) =>
    case Enter =>
    case Answer(reply) =>
    case PauseButton =>
    case MuteButton =>
    case MusicButton =>
    case StopButton =>
    case DiceButton(topic) =>
  }
}
