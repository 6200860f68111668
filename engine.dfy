/** The page's script as the program it is: one object holds the script's
    module-level variables, and every function and handler of the script is
    a method that updates them in place. Each method is proved to take the
    object from its old snapshot to the page the matching step of `Session`
    gives, so everything proved about the steps and their traces (the
    invariant of `Events`, the runs of `Runs`) holds of the object. */
module Engine {
  import opened Text
  import opened Classifier
  import opened Clips
  import opened Selector
  import opened Timing
  import opened Session
  import opened Events

  class LipSyncPage {
    /** Which revision of the script runs, and the page's origin. */
    const rev: Revision
    const origin: string

    /** The `<video id="visual">` element. */
    var visual: Visual
    /** The tick's variables: `currentMouthShape`, `lastSwitchTime`,
        `lastLowVolumeTime`, `lastVideoByShape` with `videoHistory`, and
        whether `animationFrameId` names a pending frame. */
    var lip: Lip
    /** The sequencer's variables: `speechAudios.length`, `currentIndex`,
        `currentSpeechAudio`, the replaced speech audios still playing,
        `cheerAudio`, `isCheering`, and the pending timers. */
    var play: Playback
    /** `ambient.volume` in hundredths, `isMuted`, `isMusicOn`, `isIdle`, the
        input's `disabled` and `value`, and the requests under way. */
    var ui: Controls

    /** The page the fields describe. */
    ghost function Snapshot(): Page
      reads this
    {
      Page(rev, origin, visual, lip, play, ui)
    }

    /** The invariant of `Events` holds of the snapshot. */
    ghost predicate Valid()
      reads this
    {
      Inv(Snapshot())
    }

    /** The script's declarations, then `loadIdleVideo()`. */
    constructor(rev: Revision, origin: string)
      ensures Snapshot() == Initial(rev, origin)
      ensures Valid()
    {
      this.rev := rev;
      this.origin := origin;
      visual := Visual("", false, false, false, Unset, false);
      lip := Lip(Closed, 0, 0, Fresh, false);
      play := Playback(0, 0, 0, None, 0, None, false, 0, []);
      ui := Controls(AmbientFull, false, true, true, false, "", 0);
      new;
      LoadIdleVideo();
      InitialInv(rev, origin);
    }

    // -------------------------------------------------------------------------
    // The visual

    /** `switchVideo(file, loop)`. */
    method SwitchVideo(file: string, loop: bool)
      modifies this
      ensures Snapshot() == old(Snapshot()).(visual := Session.SwitchVideo(rev, origin, old(visual), file, loop))
    {
      if file == "" {
        return;
      }
      var full := VideoPath(rev, file);
      if visual.src == full {
        return;
      }
      visual := Visual(Resolve(origin, full), loop, true, false, PlayFromStart, visual.onEnded);
    }

    /** `loadIdleVideo()`. */
    method LoadIdleVideo()
      modifies this
      ensures Snapshot() == LoadIdle(old(Snapshot()))
    {
      SwitchVideo(IdleFile(rev), true);
      lip := lip.(shape := Closed);
      lip := lip.(memory := lip.memory.(history := []));
      lip := lip.(memory := lip.memory.(lastByShape := map[]));
    }

    /** `loadEndVideo()`. */
    method LoadEndVideo()
      modifies this
      ensures Snapshot() == LoadEnd(old(Snapshot()))
    {
      SwitchVideo(EndFile(rev), false);
      visual := visual.(onMetadata := ScheduleEndCheer);
      visual := visual.(onEnded := true);
    }

    // -------------------------------------------------------------------------
    // The selector and the tick

    /** `getRandomVideo(shape)` with the draw `u`: the candidates, one of them
        picked, recorded as the shape's last clip and pushed onto the history,
        whose oldest entry is shifted out past the cap. */
    method GetRandomVideo(shape: Shape, u: Unit) returns (candidate: string)
      modifies this
      ensures var (m, clip) := RandomVideo(rev, old(lip.memory), shape, u);
        clip == Some(candidate) && Snapshot() == old(Snapshot()).(lip := old(lip).(memory := m))
    {
      var videos := Library(rev, shape);
      LibraryWellFormed(rev, shape);
      var pool := Pool(videos, lip.memory, shape);
      candidate := pool[PickIndex(u, |pool|)];
      var history := lip.memory.history + [candidate];
      if |history| > HistoryCap {
        history := history[1..];
      }
      lip := lip.(memory := Memory(lip.memory.lastByShape[shape := candidate], history));
    }

    /** `syncLipSync`, run by the pending frame at `now` over the analyser's
        snapshot `freq`/`time`, with the classifier's draw `coin` and the
        selector's draw `u`. */
    method SyncLipSync(now: int, freq: seq<Byte>, time: seq<Byte>, coin: real, u: Unit)
      requires lip.frameArmed
      requires |freq| == FrequencyBins && |time| == TimeSamples
      requires Valid()
      modifies this
      ensures Snapshot() == Tick(old(Snapshot()), now, freq, time, coin, u)
      ensures Valid()
    {
      ghost var p := Snapshot();
      TickKeeps(p, now, freq, time, coin, u);
      if play.speech.None? || play.speech.value.paused || play.cheering {
        lip := lip.(frameArmed := false);
        return;
      }
      var mouthShape := Classify(freq, time, coin);
      if Silent(freq) {
        if lip.lowSince == 0 {
          lip := lip.(lowSince := now);
        }
        if now - lip.lowSince > SilenceHold {
          mouthShape := Closed;
        }
      } else {
        lip := lip.(lowSince := 0);
      }
      if ShouldSwitch(rev, now - lip.lastSwitch, mouthShape != lip.shape) {
        var candidate := GetRandomVideo(mouthShape, u);
        SwitchVideo(ClipRequest(rev, candidate), false);
        lip := lip.(shape := mouthShape, lastSwitch := now);
      }
    }

    // -------------------------------------------------------------------------
    // The sequencer

    /** `playMidCheer(playNext)` with the draws `rCheer` (the cheer) and
        `rClip` (the `closed` clip). */
    method PlayMidCheer(rCheer: Unit, rClip: Unit)
      modifies this
      ensures Snapshot() == MidCheer(old(Snapshot()), rCheer, rClip)
    {
      lip := lip.(frameArmed := false);
      play := play.(cheering := true);
      var cheerFile := MidCheerFiles(rev)[PickIndex(rCheer, 4)];
      play := play.(cheer := Some(CheerAudio(CheerUrl(rev, cheerFile), false, Level(ui.muted, CheerVolume))));
      play := play.(cheerTimers := play.cheerTimers + 1);
      var pauseVideo := GetRandomVideo(Closed, rClip);
      SwitchVideo(ClipRequest(rev, pauseVideo), false);
    }

    /** `endSequence()`. */
    method EndSequence()
      modifies this
      ensures Snapshot() == Session.EndSequence(old(Snapshot()))
    {
      LoadEndVideo();
      ui := ui.(idle := true, inputDisabled := false, draft := "");
    }

    /** `playNext()`; when the element at the cursor is already the current
        speech, `setupLipSync` throws after the volume is set. */
    method PlayNext()
      modifies this
      ensures Snapshot() == Session.PlayNext(old(Snapshot()))
    {
      if play.cursor >= play.segments {
        EndSequence();
        return;
      }
      if play.speech.Some? && play.speech.value.batch == play.batch && play.speech.value.segment == play.cursor {
        play := play.(speech := Some(play.speech.value.(volume := Level(ui.muted, SpeechVolume))));
        return;
      }
      if play.speech.Some? && !play.speech.value.paused {
        play := play.(orphans := play.orphans + 1);
      }
      play := play.(speech := Some(SpeechAudio(play.batch, play.cursor, false, Level(ui.muted, SpeechVolume))));
      lip := lip.(frameArmed := true);
    }

    /** The `onended` handler `playNext` installs, after `onpause` has
        cancelled the frame. */
    method Advance(rCheer: Unit, rClip: Unit)
      modifies this
      ensures Snapshot() == Session.Advance(old(Snapshot()), rCheer, rClip)
    {
      lip := lip.(frameArmed := false);
      play := play.(cursor := play.cursor + 1);
      if play.cursor < play.segments {
        PlayMidCheer(rCheer, rClip);
      } else {
        EndSequence();
      }
    }

    /** The current speech audio plays to its end. */
    method OnSpeechEnded(rCheer: Unit, rClip: Unit)
      requires play.speech.Some? && !play.speech.value.paused
      requires Valid()
      modifies this
      ensures Snapshot() == SpeechEnded(old(Snapshot()), rCheer, rClip)
      ensures Valid()
    {
      ghost var p := Snapshot();
      SpeechEndedKeeps(p, rCheer, rClip);
      play := play.(speech := Some(play.speech.value.(paused := true)));
      Advance(rCheer, rClip);
    }

    /** A replaced speech audio plays to its end; its handler is the same. */
    method OnReplacedEnded(rCheer: Unit, rClip: Unit)
      requires play.orphans > 0
      requires Valid()
      modifies this
      ensures Snapshot() == OrphanEnded(old(Snapshot()), rCheer, rClip)
      ensures Valid()
    {
      ghost var p := Snapshot();
      OrphanEndedKeeps(p, rCheer, rClip);
      play := play.(orphans := play.orphans - 1);
      Advance(rCheer, rClip);
    }

    /** The interlude's 6000 ms timers. */
    method OnInterludeTimeout()
      requires play.cheerTimers > 0
      requires Valid()
      modifies this
      ensures Snapshot() == CheerTimerFired(old(Snapshot()))
      ensures Valid()
    {
      ghost var p := Snapshot();
      CheerTimerKeeps(p);
      if play.cheer.Some? {
        play := play.(cheer := Some(play.cheer.value.(paused := true)));
      }
      play := play.(cheering := false, cheerTimers := play.cheerTimers - 1);
      PlayNext();
    }

    /** The cheer audio plays to its end. */
    method OnCheerEnded()
      requires play.cheer.Some? && !play.cheer.value.paused
      requires Valid()
      modifies this
      ensures Snapshot() == CheerEnded(old(Snapshot()))
      ensures Valid()
    {
      ghost var p := Snapshot();
      CheerEndedKeeps(p);
      play := play.(cheer := Some(play.cheer.value.(paused := true)));
    }

    /** The visual's `onloadedmetadata` for a clip of `duration` seconds. */
    method OnMetadata(duration: real)
      requires visual.loading && duration >= 0.0
      requires Valid()
      modifies this
      ensures Snapshot() == MetadataLoaded(old(Snapshot()), duration)
      ensures Valid()
    {
      ghost var p := Snapshot();
      MetadataKeeps(p, duration);
      if visual.onMetadata == ScheduleEndCheer {
        var delay := EndCheerDelay(duration);
        if delay.Some? {
          play := play.(endCheers := play.endCheers + [delay.value]);
        }
      }
      visual := visual.(loading := false, playing := true);
    }

    /** The pending end-cheer timer `k` fires. */
    method OnEndCheerTimeout(k: nat)
      requires k < |play.endCheers|
      requires Valid()
      modifies this
      ensures Snapshot() == EndCheerFired(old(Snapshot()), k)
      ensures Valid()
    {
      ghost var p := Snapshot();
      EndCheerKeeps(p, k);
      play := play.(cheer := Some(CheerAudio(EndCheerUrl(rev), false, Level(ui.muted, CheerVolume))));
      play := play.(endCheers := play.endCheers[..k] + play.endCheers[k + 1..]);
    }

    /** A clip that does not loop plays to its end; the handler of
        `loadEndVideo`, once installed, reloads the idle clip. */
    method OnVisualEnded()
      requires visual.playing && !visual.loop
      requires Valid()
      modifies this
      ensures Snapshot() == VisualEnded(old(Snapshot()))
      ensures Valid()
    {
      ghost var p := Snapshot();
      VisualEndedKeeps(p);
      visual := visual.(playing := false);
      if visual.onEnded {
        LoadIdleVideo();
        ui := ui.(ambient := Level(!ui.musicOn, AmbientFull));
      }
    }

    // -------------------------------------------------------------------------
    // Requests

    /** The user types `text` into the enabled input. */
    method OnInput(text: string)
      requires !ui.inputDisabled
      requires Valid()
      modifies this
      ensures Snapshot() == Typed(old(Snapshot()), text)
      ensures Valid()
    {
      ghost var p := Snapshot();
      TypedKeeps(p, text);
      ui := ui.(draft := text);
    }

    /** `generateSpeech()` up to its `fetch`. */
    method GenerateSpeech()
      requires Valid()
      modifies this
      ensures Snapshot() == Submit(old(Snapshot()))
      ensures Valid()
    {
      ghost var p := Snapshot();
      SubmitKeeps(p);
      var prompt := Trim(ui.draft);
      if prompt == "" || !ui.idle {
        return;
      }
      ui := ui.(idle := false, inputDisabled := true);
      ui := ui.(requests := ui.requests + 1);
    }

    /** The `try` block's installation of `count` speech audios. */
    method InstallSpeech(count: nat)
      requires count > 0
      modifies this
      ensures Snapshot() == Install(old(Snapshot()), count)
    {
      play := play.(batch := play.batch + 1, segments := count, cursor := 0);
      ui := ui.(ambient := Level(!ui.musicOn, AmbientDucked));
      PlayNext();
    }

    /** The rest of `generateSpeech()` once the reply is in: the `try` that
        installs a playable reply, the `catch`, and in assets/js/app.js the
        `finally`. */
    method OnReply(reply: Reply)
      requires ui.requests > 0
      requires Valid()
      modifies this
      ensures Snapshot() == Receive(old(Snapshot()), reply)
      ensures Valid()
    {
      ghost var p := Snapshot();
      ReceiveKeeps(p, reply);
      ui := ui.(requests := ui.requests - 1);
      if Playable(reply) {
        InstallSpeech(reply.audios);
      } else if rev == Assets {
        LoadIdleVideo();
      } else {
        ui := ui.(idle := true, inputDisabled := false);
      }
      if rev == Assets {
        ui := ui.(idle := true, inputDisabled := false);
      }
    }

    // -------------------------------------------------------------------------
    // The buttons

    /** The pause button. */
    method OnPause()
      requires Valid()
      modifies this
      ensures Snapshot() == PauseClicked(old(Snapshot()))
      ensures Valid()
    {
      ghost var p := Snapshot();
      PauseKeeps(p);
      if play.cheering && play.cheer.Some? {
        play := play.(cheer := Some(play.cheer.value.(paused := !play.cheer.value.paused)));
      } else if play.speech.Some? {
        var s := play.speech.value;
        play := play.(speech := Some(s.(paused := !s.paused)));
        lip := lip.(frameArmed := s.paused);
      }
    }

    /** The mute button. */
    method OnMute()
      requires Valid()
      modifies this
      ensures Snapshot() == MuteClicked(old(Snapshot()))
      ensures Valid()
    {
      ghost var p := Snapshot();
      MuteKeeps(p);
      ui := ui.(muted := !ui.muted);
      if play.speech.Some? {
        play := play.(speech := Some(play.speech.value.(volume := Level(ui.muted, SpeechVolume))));
      }
      if play.cheer.Some? {
        play := play.(cheer := Some(play.cheer.value.(volume := Level(ui.muted, CheerVolume))));
      }
    }

    /** The music toggle. */
    method OnMusic()
      requires Valid()
      modifies this
      ensures Snapshot() == MusicClicked(old(Snapshot()))
      ensures Valid()
    {
      ghost var p := Snapshot();
      MusicKeeps(p);
      ui := ui.(musicOn := !ui.musicOn);
      ui := ui.(ambient := Level(!ui.musicOn, AmbientFull));
    }

    /** The dice button, with the topic drawn. */
    method OnDice(topic: string)
      requires Valid()
      modifies this
      ensures Snapshot() == DiceClicked(old(Snapshot()), topic)
      ensures Valid()
    {
      ghost var p := Snapshot();
      DiceKeeps(p, topic);
      ui := ui.(draft := "Give a presidential speech about " + topic + ".");
      GenerateSpeech();
    }

    /** The stop button. */
    method OnStop()
      requires Valid()
      modifies this
      ensures Snapshot() == StopClicked(old(Snapshot()))
      ensures Valid()
    {
      ghost var p := Snapshot();
      StopKeeps(p);
      if play.speech.Some? {
        play := play.(speech := Some(play.speech.value.(paused := true)));
      }
      if play.cheer.Some? {
        play := play.(cheer := Some(play.cheer.value.(paused := true)));
      }
      lip := lip.(frameArmed := false);
      LoadIdleVideo();
      ui := ui.(ambient := Level(!ui.musicOn, AmbientFull));
      play := play.(cheering := false);
      ui := ui.(idle := true, inputDisabled := false);
      play := play.(cursor := play.segments);
    }
  }
}
