/** The state of the talking-head page and one step per event that changes it.
    A `Page` holds what the page's script keeps in module-level variables
    (`currentMouthShape`, `lastSwitchTime`, `currentIndex`, `isCheering`, ...)
    together with the parts of the media elements the script reads back (the
    visual's `src` and handlers, the audio elements' `paused` and `volume`).
    Media events, timers and animation frames are steps of their own; the
    byte snapshots, the clock and every `Math.random()` draw are parameters. */
module Session {
  import opened Text
  import opened Classifier
  import opened Clips
  import opened Selector
  import opened Timing

  // ---------------------------------------------------------------------------
  // Media elements

  /** What the visual's `onloadedmetadata` does: nothing yet (the page has not
      switched a clip), start the clip from the beginning (`switchVideo`), or
      start it and schedule the end cheer (`loadEndVideo`). */
  datatype MetadataHandler = Unset | PlayFromStart | ScheduleEndCheer

  /** The `<video id="visual">` element. `src` is what the element reports,
      the URL resolved against the page's origin; `loading` is a load whose
      metadata has not arrived; `onEnded` is whether the `onended` handler of
      `loadEndVideo` is installed (nothing removes it once it is). */
  datatype Visual = Visual(src: string, loop: bool, loading: bool, playing: bool,
                           onMetadata: MetadataHandler, onEnded: bool)

  /** The audio element of segment `segment` of the `batch`-th array of
      speech audios the page installed; volumes are whole hundredths. Two
      values with the same batch and segment are the same element. */
  datatype SpeechAudio = SpeechAudio(batch: nat, segment: nat, paused: bool, volume: nat)

  /** The cheer audio element `cheerAudio`. */
  datatype CheerAudio = CheerAudio(url: string, paused: bool, volume: nat)

  const SpeechVolume := 100
  const CheerVolume := 70
  const AmbientFull := 30
  const AmbientDucked := 10

  /** `isMuted ? 0 : full`. */
  function Level(muted: bool, full: nat): nat
  {
    if muted then 0 else full
  }

  /** How the element resolves a URL assigned to `src`: a root-relative path
      is taken relative to the page's origin, an absolute URL as it is. */
  function Resolve(origin: string, url: string): string
  {
    if url != [] && url[0] == '/' then origin + url else url
  }

  // ---------------------------------------------------------------------------
  // The page

  /** The tick's own variables: `currentMouthShape`, `lastSwitchTime`,
      `lastLowVolumeTime`, the selector's memory, and whether an animation
      frame for the tick is pending. */
  datatype Lip = Lip(shape: Shape, lastSwitch: int, lowSince: int, memory: Memory, frameArmed: bool)

  /** The sequencer's variables: which array `speechAudios` holds (the count
      of arrays installed), `speechAudios.length`, `currentIndex`,
      `currentSpeechAudio`, the replaced speech audios that still play,
      `cheerAudio`, `isCheering`, the pending 6000 ms interlude timers and the
      delays of the pending end-cheer timers. */
  datatype Playback = Playback(batch: nat, segments: nat, cursor: nat, speech: Option<SpeechAudio>, orphans: nat,
                               cheer: Option<CheerAudio>, cheering: bool, cheerTimers: nat,
                               endCheers: seq<int>)

  /** The settings and the input: `ambient.volume` in hundredths, `isMuted`,
      `isMusicOn`, `isIdle`, the input's `disabled` and `value`, and the
      requests to `/api/generate` not yet answered. */
  datatype Controls = Controls(ambient: nat, muted: bool, musicOn: bool, idle: bool,
                               inputDisabled: bool, draft: string, requests: nat)

  datatype Page = Page(rev: Revision, origin: string, visual: Visual, lip: Lip, play: Playback, ui: Controls)

  /** The page after the script's declarations and before `loadIdleVideo`:
      ambient at 0.3, music on, idle, the visual without a `src`. */
  function Declared(rev: Revision, origin: string): Page
  {
    Page(rev, origin, Visual("", false, false, false, Unset, false),
         Lip(Closed, 0, 0, Fresh, false),
         Playback(0, 0, 0, None, 0, None, false, 0, []),
         Controls(AmbientFull, false, true, true, false, "", 0))
  }

  // ---------------------------------------------------------------------------
  // The visual

  /** `switchVideo(file, loop)` on the visual of a page of revision `rev` at
      `origin`: nothing for an empty name or when the element's `src` already
      equals the full path; otherwise the element starts loading the clip,
      with its metadata handler set to start it from the beginning. The
      ended handler is left as it is. */
  function SwitchVideo(rev: Revision, origin: string, v: Visual, file: string, loop: bool): (r: Visual)
    ensures file == "" || v.src == VideoPath(rev, file) ==> r == v
    ensures file != "" && v.src != VideoPath(rev, file) ==>
      r.src == Resolve(origin, VideoPath(rev, file)) && r.loop == loop
      && r.loading && !r.playing && r.onMetadata == PlayFromStart
    ensures r.onEnded == v.onEnded
  {
    if file == "" then v
    else
      var full := VideoPath(rev, file);
      if v.src == full then v
      else Visual(Resolve(origin, full), loop, true, false, PlayFromStart, v.onEnded)
  }

  /** The visual after `switchVideo` on page `p`. */
  function Switched(p: Page, file: string, loop: bool): Visual
  {
    SwitchVideo(p.rev, p.origin, p.visual, file, loop)
  }

  /** `loadIdleVideo`: the looping idle clip, the mouth back to `closed`, and
      the selector's memory emptied; nothing else changes. */
  function LoadIdle(p: Page): (r: Page)
    ensures r.lip == p.lip.(shape := Closed, memory := Fresh)
    ensures r.visual == Switched(p, IdleFile(p.rev), true)
    ensures r == p.(visual := r.visual, lip := r.lip)
  {
    p.(visual := Switched(p, IdleFile(p.rev), true), lip := p.lip.(shape := Closed, memory := Fresh))
  }

  /** `loadEndVideo`: the end clip, not looping, then both handlers replaced,
      even when the switch itself did nothing: the metadata handler that
      schedules the end cheer, and the ended handler that returns to idle. */
  function LoadEnd(p: Page): (r: Page)
    ensures r.visual.onMetadata == ScheduleEndCheer && r.visual.onEnded
    ensures r.visual.src == Switched(p, EndFile(p.rev), false).src
    ensures r.visual.loading == Switched(p, EndFile(p.rev), false).loading
    ensures r == p.(visual := r.visual)
  {
    p.(visual := Switched(p, EndFile(p.rev), false).(onMetadata := ScheduleEndCheer, onEnded := true))
  }

  // ---------------------------------------------------------------------------
  // The clip selector on the page

  /** `getRandomVideo(shape)` over the revision's library and the selector's
      memory. Every library has clips, so a clip is always drawn; it is not
      the clip last drawn for the shape, it becomes that clip, and it is the
      newest entry of the capped history. */
  function RandomVideo(rev: Revision, m: Memory, shape: Shape, u: Unit): (r: (Memory, Option<string>))
    ensures r.1.Some? && r.1.value in Library(rev, shape)
    ensures LastUsed(m, shape).Some? ==> r.1.value != LastUsed(m, shape).value
    ensures LastUsed(r.0, shape) == r.1
    ensures r.0.history == PushCapped(m.history, r.1.value)
  {
    LibraryWellFormed(rev, shape);
    Draw(Library(rev, shape), m, shape, u)
  }

  // ---------------------------------------------------------------------------
  // The lip-sync tick

  /** Whether a tick finds nothing to animate: no speech, the speech paused, or
      an interlude running. */
  predicate Stale(p: Page)
  {
    p.play.speech.None? || p.play.speech.value.paused || p.play.cheering
  }

  /** The shape a live tick aims for: the classifier's, unless the silence
      rule forces `closed`. */
  function Target(p: Page, now: int, freq: seq<Byte>, time: seq<Byte>, coin: real): Shape
    requires |freq| == FrequencyBins && |time| == TimeSamples
  {
    if SilenceStep(Silent(freq), p.lip.lowSince, now).1 then Closed else Classify(freq, time, coin)
  }

  /** Whether a live tick switches clips. */
  predicate Switches(p: Page, now: int, freq: seq<Byte>, time: seq<Byte>, coin: real)
    requires |freq| == FrequencyBins && |time| == TimeSamples
  {
    ShouldSwitch(p.rev, now - p.lip.lastSwitch, Target(p, now, freq, time, coin) != p.lip.shape)
  }

  /** `syncLipSync` run by an animation frame at time `now` over one snapshot
      of the analyser; `coin` is the classifier's draw and `u` the
      selector's. A stale tick only lets the frame lapse. A live tick updates
      the silence clock, switches to a fresh clip of the target shape when the
      revision's rule allows, recording the shape and the time, and asks for
      the next frame. Only the visual and the tick's variables change. */
  function Tick(p: Page, now: int, freq: seq<Byte>, time: seq<Byte>, coin: real, u: Unit): (r: Page)
    requires p.lip.frameArmed
    requires |freq| == FrequencyBins && |time| == TimeSamples
    ensures Stale(p) ==> r == p.(lip := p.lip.(frameArmed := false))
    ensures !Stale(p) ==> r.lip.frameArmed && r.lip.lowSince == SilenceStep(Silent(freq), p.lip.lowSince, now).0
    ensures !Stale(p) && !Switches(p, now, freq, time, coin) ==>
      r == p.(lip := p.lip.(lowSince := r.lip.lowSince))
    ensures !Stale(p) && Switches(p, now, freq, time, coin) ==>
      var shape := Target(p, now, freq, time, coin);
      var (m, clip) := RandomVideo(p.rev, p.lip.memory, shape, u);
      r.lip == Lip(shape, now, r.lip.lowSince, m, true)
      && r.visual == Switched(p, ClipRequest(p.rev, clip.value), false)
    ensures r == p.(visual := r.visual, lip := r.lip)
  {
    if Stale(p) then p.(lip := p.lip.(frameArmed := false))
    else
      var shape := Target(p, now, freq, time, coin);
      var lowSince := SilenceStep(Silent(freq), p.lip.lowSince, now).0;
      if Switches(p, now, freq, time, coin) then
        var (m, clip) := RandomVideo(p.rev, p.lip.memory, shape, u);
        p.(visual := Switched(p, ClipRequest(p.rev, clip.value), false),
           lip := Lip(shape, now, lowSince, m, true))
      else p.(lip := p.lip.(lowSince := lowSince))
  }

  // ---------------------------------------------------------------------------
  // The segment sequencer

  /** `endSequence`: the end video, the page idle again with the input
      enabled and emptied. */
  function EndSequence(p: Page): (r: Page)
    ensures r.ui == p.ui.(idle := true, inputDisabled := false, draft := "")
    ensures r.visual == LoadEnd(p).visual
    ensures r == p.(visual := r.visual, ui := r.ui)
  {
    LoadEnd(p).(ui := p.ui.(idle := true, inputDisabled := false, draft := ""))
  }

  /** `playMidCheer(playNext)`: the frame cancelled, the interlude flag set, a
      cheer drawn by `rCheer` among the four interlude cheers started at the
      cheer volume, the interlude timer started, and a `closed` clip drawn by
      `rClip` shown. The mouth shape itself is not updated. */
  function MidCheer(p: Page, rCheer: Unit, rClip: Unit): (r: Page)
    ensures !r.lip.frameArmed && r.play.cheering && r.play.cheerTimers == p.play.cheerTimers + 1
    ensures r.play.cheer.Some? && !r.play.cheer.value.paused
    ensures r.play.cheer.value.volume == Level(p.ui.muted, CheerVolume)
    ensures exists k :: 0 <= k < 4 && r.play.cheer.value.url == CheerUrl(p.rev, MidCheerFiles(p.rev)[k])
    ensures r.play == p.play.(cheer := r.play.cheer, cheering := true, cheerTimers := r.play.cheerTimers)
    ensures var (m, clip) := RandomVideo(p.rev, p.lip.memory, Closed, rClip);
      r.lip == p.lip.(memory := m, frameArmed := false)
      && r.visual == Switched(p, ClipRequest(p.rev, clip.value), false)
    ensures r == p.(visual := r.visual, lip := r.lip, play := r.play)
  {
    var file := MidCheerFiles(p.rev)[PickIndex(rCheer, 4)];
    var (m, clip) := RandomVideo(p.rev, p.lip.memory, Closed, rClip);
    p.(visual := if clip.Some? then Switched(p, ClipRequest(p.rev, clip.value), false) else p.visual,
       lip := p.lip.(memory := m, frameArmed := false),
       play := p.play.(cheering := true,
                       cheer := Some(CheerAudio(CheerUrl(p.rev, file), false, Level(p.ui.muted, CheerVolume))),
                       cheerTimers := p.play.cheerTimers + 1))
  }

  /** `currentSpeechAudio` is an element of the array `speechAudios` holds. */
  predicate OfCurrentArray(play: Playback)
  {
    play.speech.Some? ==> play.speech.value.batch == play.batch
  }

  /** `speechAudios[currentIndex]` is `currentSpeechAudio` itself. */
  predicate AtCursor(p: Page)
  {
    p.play.speech.Some? && p.play.speech.value.batch == p.play.batch
    && p.play.speech.value.segment == p.play.cursor
  }

  /** `playNext`: past the last segment, the end sequence. Otherwise the
      element at the cursor gets the speech volume. When it is the element
      already current (an interlude timer left pending fires after a new
      reply started it), that is all: `setupLipSync` throws on a second
      `createMediaElementSource` for it, so neither `play()` nor the rest
      runs, and the one element keeps its state and its handler. Otherwise
      it becomes the current speech, starts playing, and its `onplay` arms
      a frame; a speech audio it replaces while that one still plays goes on
      playing unseen. */
  function PlayNext(p: Page): (r: Page)
    ensures p.play.cursor >= p.play.segments ==> r == EndSequence(p)
    ensures p.play.cursor < p.play.segments && AtCursor(p) ==>
      r == p.(play := p.play.(speech := Some(p.play.speech.value.(volume := Level(p.ui.muted, SpeechVolume)))))
    ensures p.play.cursor < p.play.segments && !AtCursor(p) ==>
      r.play.speech == Some(SpeechAudio(p.play.batch, p.play.cursor, false, Level(p.ui.muted, SpeechVolume)))
      && r.play.orphans == p.play.orphans + (if p.play.speech.Some? && !p.play.speech.value.paused then 1 else 0)
      && r.play == p.play.(speech := r.play.speech, orphans := r.play.orphans)
      && r == p.(lip := p.lip.(frameArmed := true), play := r.play)
  {
    if p.play.cursor >= p.play.segments then EndSequence(p)
    else if AtCursor(p) then
      p.(play := p.play.(speech := Some(p.play.speech.value.(volume := Level(p.ui.muted, SpeechVolume)))))
    else
      var replaced := if p.play.speech.Some? && !p.play.speech.value.paused then 1 else 0;
      p.(lip := p.lip.(frameArmed := true),
         play := p.play.(speech := Some(SpeechAudio(p.play.batch, p.play.cursor, false, Level(p.ui.muted, SpeechVolume))),
                         orphans := p.play.orphans + replaced))
  }

  /** The `onended` handler of a speech audio, after its `onpause` has
      cancelled the frame: the cursor moves on, then an interlude when a
      segment is left, the end sequence otherwise. */
  function Advance(p: Page, rCheer: Unit, rClip: Unit): Page
  {
    var q := p.(lip := p.lip.(frameArmed := false), play := p.play.(cursor := p.play.cursor + 1));
    if q.play.cursor < q.play.segments then MidCheer(q, rCheer, rClip) else EndSequence(q)
  }

  /** The current speech audio plays to its end: it stays paused at its end,
      the frame is cancelled, the cursor moves on, and either an interlude
      starts or, after the last segment, the end sequence runs. */
  function SpeechEnded(p: Page, rCheer: Unit, rClip: Unit): (r: Page)
    requires p.play.speech.Some? && !p.play.speech.value.paused
    ensures r.play.speech == Some(p.play.speech.value.(paused := true))
    ensures r.play.cursor == p.play.cursor + 1 && !r.lip.frameArmed
    ensures r.play.cursor < r.play.segments ==> r.play.cheering && r.play.cheerTimers == p.play.cheerTimers + 1
    ensures r.play.cursor >= r.play.segments ==>
      r.ui.idle && r.visual.onEnded && r.play == p.play.(speech := r.play.speech, cursor := r.play.cursor)
  {
    Advance(p.(play := p.play.(speech := Some(p.play.speech.value.(paused := true)))), rCheer, rClip)
  }

  /** A replaced speech audio plays to its end: its handlers still move the
      shared cursor and cancel the shared frame. */
  function OrphanEnded(p: Page, rCheer: Unit, rClip: Unit): (r: Page)
    requires p.play.orphans > 0
    ensures r.play.orphans == p.play.orphans - 1 && r.play.speech == p.play.speech
    ensures r.play.cursor == p.play.cursor + 1 && !r.lip.frameArmed
  {
    Advance(p.(play := p.play.(orphans := p.play.orphans - 1)), rCheer, rClip)
  }

  /** The interlude's two 6000 ms timers: the cheer audio paused, the
      interlude flag cleared, and `playNext` called. */
  function CheerTimerFired(p: Page): Page
    requires p.play.cheerTimers > 0
  {
    var cheer := if p.play.cheer.Some? then Some(p.play.cheer.value.(paused := true)) else None;
    PlayNext(p.(play := p.play.(cheer := cheer, cheering := false, cheerTimers := p.play.cheerTimers - 1)))
  }

  /** The cheer audio plays to its end; nothing listens for that. */
  function CheerEnded(p: Page): Page
    requires p.play.cheer.Some? && !p.play.cheer.value.paused
  {
    p.(play := p.play.(cheer := Some(p.play.cheer.value.(paused := true))))
  }

  /** The visual's metadata arrives for a clip of `duration` seconds: the clip
      plays from the start, and under the end video's handler a video longer
      than four seconds schedules the end cheer. */
  function MetadataLoaded(p: Page, duration: real): (r: Page)
    requires p.visual.loading && duration >= 0.0
    ensures r.visual == p.visual.(loading := false, playing := true)
    ensures p.visual.onMetadata == ScheduleEndCheer && EndCheerDelay(duration).Some? ==>
      r.play.endCheers == p.play.endCheers + [EndCheerDelay(duration).value]
    ensures !(p.visual.onMetadata == ScheduleEndCheer && EndCheerDelay(duration).Some?) ==>
      r.play.endCheers == p.play.endCheers
    ensures r == p.(visual := r.visual, play := p.play.(endCheers := r.play.endCheers))
  {
    var q := p.(visual := p.visual.(loading := false, playing := true));
    if p.visual.onMetadata == ScheduleEndCheer then
      match EndCheerDelay(duration)
      case Some(d) => q.(play := q.play.(endCheers := q.play.endCheers + [d]))
      case None => q
    else q
  }

  /** The pending end-cheer timer `k` fires: the end cheer replaces the cheer
      audio at the cheer volume, and that timer is no longer pending. It
      does not start an interlude. */
  function EndCheerFired(p: Page, k: nat): (r: Page)
    requires k < |p.play.endCheers|
    ensures r.play.cheer == Some(CheerAudio(EndCheerUrl(p.rev), false, Level(p.ui.muted, CheerVolume)))
    ensures multiset(r.play.endCheers) + multiset{p.play.endCheers[k]} == multiset(p.play.endCheers)
    ensures r == p.(play := p.play.(cheer := r.play.cheer, endCheers := r.play.endCheers))
  {
    var pending := p.play.endCheers;
    assert pending == pending[..k] + [pending[k]] + pending[k + 1..];
    p.(play := p.play.(cheer := Some(CheerAudio(EndCheerUrl(p.rev), false, Level(p.ui.muted, CheerVolume))),
                       endCheers := pending[..k] + pending[k + 1..]))
  }

  /** A clip that does not loop plays to its end. Without the end video's
      handler it stays on its last frame; with it, whatever the clip, the
      page returns to the idle clip and restores the ambient level. */
  function VisualEnded(p: Page): (r: Page)
    requires p.visual.playing && !p.visual.loop
    ensures !r.visual.playing || r.visual.loop
    ensures !p.visual.onEnded ==> r == p.(visual := p.visual.(playing := false))
    ensures p.visual.onEnded ==>
      r.lip == p.lip.(shape := Closed, memory := Fresh)
      && r.visual == SwitchVideo(p.rev, p.origin, p.visual.(playing := false), IdleFile(p.rev), true)
      && r.ui == p.ui.(ambient := Level(!p.ui.musicOn, AmbientFull))
      && r == p.(visual := r.visual, lip := r.lip, ui := r.ui)
  {
    var q := p.(visual := p.visual.(playing := false));
    if p.visual.onEnded then
      var i := LoadIdle(q);
      i.(ui := i.ui.(ambient := Level(!p.ui.musicOn, AmbientFull)))
    else q
  }

  // ---------------------------------------------------------------------------
  // Requests

  /** `generateSpeech` up to its `fetch`: nothing unless the trimmed input is
      non-empty and the page is idle; then the page is busy, the input
      disabled, and one more request is under way. */
  function Submit(p: Page): (r: Page)
    ensures Trim(p.ui.draft) == "" || !p.ui.idle ==> r == p
    ensures Trim(p.ui.draft) != "" && p.ui.idle ==>
      r == p.(ui := p.ui.(idle := false, inputDisabled := true, requests := p.ui.requests + 1))
  {
    if Trim(p.ui.draft) == "" || !p.ui.idle then p
    else p.(ui := p.ui.(idle := false, inputDisabled := true, requests := p.ui.requests + 1))
  }

  /** The answer to a request: an error (a status that is not ok, or a body
      that does not parse), or a body with `audios` of some length. */
  datatype Reply = Failed | Delivered(audios: nat)

  predicate Playable(reply: Reply)
  {
    reply.Delivered? && reply.audios > 0
  }

  /** A playable reply installed: a new array of speech audios with its
      segments, the cursor at 0, the ambient ducked to 0.1, and `playNext`.
      Its first element is new, so it starts playing, unless the current
      speech were not of the old array. */
  function Install(p: Page, count: nat): (r: Page)
    requires count > 0
    ensures r.play.batch == p.play.batch + 1
    ensures r.play.segments == count && r.play.cursor == 0
    ensures OfCurrentArray(p.play) ==>
      r.lip.frameArmed
      && r.play.speech == Some(SpeechAudio(r.play.batch, 0, false, Level(p.ui.muted, SpeechVolume)))
      && r.play.orphans == p.play.orphans + (if p.play.speech.Some? && !p.play.speech.value.paused then 1 else 0)
    ensures r.ui == p.ui.(ambient := Level(!p.ui.musicOn, AmbientDucked))
    ensures r.visual == p.visual
  {
    PlayNext(p.(play := p.play.(batch := p.play.batch + 1, segments := count, cursor := 0),
                ui := p.ui.(ambient := Level(!p.ui.musicOn, AmbientDucked))))
  }

  /** The rest of `generateSpeech`. A playable reply is installed; otherwise
      assets/js/app.js reloads the idle clip. Then assets/js/app.js makes the
      page idle in any case (its `finally`), while api/app.js does so only on
      an error. */
  function Receive(p: Page, reply: Reply): (r: Page)
    requires p.ui.requests > 0
    ensures r.ui.requests == p.ui.requests - 1
    ensures Playable(reply) ==>
      r.play == Install(p, reply.audios).play && r.lip == Install(p, reply.audios).lip
      && r.ui.ambient == Level(!p.ui.musicOn, AmbientDucked)
    ensures p.rev == Assets ==> r.ui.idle && !r.ui.inputDisabled
    ensures p.rev == Assets && !Playable(reply) ==>
      r == LoadIdle(p).(ui := p.ui.(requests := r.ui.requests, idle := true, inputDisabled := false))
    ensures p.rev == Api && Playable(reply) ==> r.ui.idle == p.ui.idle && r.ui.inputDisabled == p.ui.inputDisabled
    ensures p.rev == Api && !Playable(reply) ==>
      r == p.(ui := p.ui.(requests := r.ui.requests, idle := true, inputDisabled := false))
  {
    var q := p.(ui := p.ui.(requests := p.ui.requests - 1));
    match p.rev
    case Assets =>
      var done := if Playable(reply) then Install(q, reply.audios) else LoadIdle(q);
      done.(ui := done.ui.(idle := true, inputDisabled := false))
    case Api =>
      if Playable(reply) then Install(q, reply.audios) else q.(ui := q.ui.(idle := true, inputDisabled := false))
  }

  // ---------------------------------------------------------------------------
  // Controls

  /** The pause button: during an interlude it toggles the cheer; otherwise
      it toggles the speech, whose `onplay` arms a frame and whose `onpause`
      cancels it. */
  function PauseClicked(p: Page): (r: Page)
    ensures p.play.cheering && p.play.cheer.Some? ==>
      r == p.(play := p.play.(cheer := Some(p.play.cheer.value.(paused := !p.play.cheer.value.paused))))
    ensures !(p.play.cheering && p.play.cheer.Some?) && p.play.speech.Some? ==>
      r.play == p.play.(speech := Some(p.play.speech.value.(paused := !p.play.speech.value.paused)))
      && r.lip == p.lip.(frameArmed := p.play.speech.value.paused)
      && r == p.(lip := r.lip, play := r.play)
    ensures !(p.play.cheering && p.play.cheer.Some?) && p.play.speech.None? ==> r == p
  {
    if p.play.cheering && p.play.cheer.Some? then
      p.(play := p.play.(cheer := Some(p.play.cheer.value.(paused := !p.play.cheer.value.paused))))
    else if p.play.speech.Some? then
      var s := p.play.speech.value;
      p.(lip := p.lip.(frameArmed := s.paused), play := p.play.(speech := Some(s.(paused := !s.paused))))
    else p
  }

  /** The mute button: the flag flips and the speech and cheer volumes follow
      it (0 or 1, 0 or 0.7). */
  function MuteClicked(p: Page): (r: Page)
    ensures r.ui == p.ui.(muted := !p.ui.muted)
    ensures r.play.speech.Some? <==> p.play.speech.Some?
    ensures r.play.speech.Some? ==> r.play.speech.value == p.play.speech.value.(volume := Level(r.ui.muted, SpeechVolume))
    ensures r.play.cheer.Some? <==> p.play.cheer.Some?
    ensures r.play.cheer.Some? ==> r.play.cheer.value == p.play.cheer.value.(volume := Level(r.ui.muted, CheerVolume))
    ensures r == p.(ui := r.ui, play := p.play.(speech := r.play.speech, cheer := r.play.cheer))
  {
    var m := !p.ui.muted;
    var speech := if p.play.speech.Some? then Some(p.play.speech.value.(volume := Level(m, SpeechVolume))) else None;
    var cheer := if p.play.cheer.Some? then Some(p.play.cheer.value.(volume := Level(m, CheerVolume))) else None;
    p.(ui := p.ui.(muted := m), play := p.play.(speech := speech, cheer := cheer))
  }

  /** The music toggle: the flag flips and the ambient goes to 0.3 or 0. */
  function MusicClicked(p: Page): Page
  {
    p.(ui := p.ui.(musicOn := !p.ui.musicOn, ambient := Level(p.ui.musicOn, AmbientFull)))
  }

  /** The stop button: speech and cheer paused, the frame cancelled, the idle
      clip reloaded, the ambient restored, the interlude flag cleared, the
      page idle, and the cursor moved past the last segment. Pending timers
      stay pending, and replaced speech audios go on playing. */
  function StopClicked(p: Page): (r: Page)
    ensures r.play.speech.Some? <==> p.play.speech.Some?
    ensures r.play.speech.Some? ==> r.play.speech.value == p.play.speech.value.(paused := true)
    ensures r.play.cheer.Some? <==> p.play.cheer.Some?
    ensures r.play.cheer.Some? ==> r.play.cheer.value == p.play.cheer.value.(paused := true)
    ensures r.play == p.play.(speech := r.play.speech, cheer := r.play.cheer, cheering := false,
                              cursor := p.play.segments)
    ensures r.lip == p.lip.(shape := Closed, memory := Fresh, frameArmed := false)
    ensures r.visual == Switched(p, IdleFile(p.rev), true)
    ensures r.ui == p.ui.(ambient := Level(!p.ui.musicOn, AmbientFull), idle := true, inputDisabled := false)
    ensures r == p.(visual := r.visual, lip := r.lip, play := r.play, ui := r.ui)
  {
    var speech := if p.play.speech.Some? then Some(p.play.speech.value.(paused := true)) else None;
    var cheer := if p.play.cheer.Some? then Some(p.play.cheer.value.(paused := true)) else None;
    var q := p.(lip := p.lip.(frameArmed := false),
                play := p.play.(speech := speech, cheer := cheer, cheering := false, cursor := p.play.segments),
                ui := p.ui.(ambient := Level(!p.ui.musicOn, AmbientFull), idle := true, inputDisabled := false));
    LoadIdle(q)
  }

  /** The dice button: the input filled with a speech request about `topic`,
      then `generateSpeech`. */
  function DiceClicked(p: Page, topic: string): Page
  {
    Submit(p.(ui := p.ui.(draft := "Give a presidential speech about " + topic + ".")))
  }

  /** The user types into the enabled input. */
  function Typed(p: Page, text: string): Page
    requires !p.ui.inputDisabled
  {
    p.(ui := p.ui.(draft := text))
  }

  /** The page once its script has run: the idle clip requested. */
  function Initial(rev: Revision, origin: string): Page
  {
    LoadIdle(Declared(rev, origin))
  }
}
