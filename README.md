# donald.ai lip-sync engine, modelled in Dafny

donald.ai is a web page with a talking head. The user types a prompt. The
page sends it to a serverless endpoint. The endpoint asks a chat-completion
service for a rally speech and normalises the speech so that it holds one
`[cheering]` marker. It splits the speech at that marker and turns each
segment into speech audio with a text-to-speech service. The page then plays
the segments in order, with a cheering interlude between them. While a
segment plays, an animation-frame tick reads the audio analyser and
classifies the sound into one of six mouth shapes. It then switches the
visual to a clip of that shape, never showing the same clip twice in a row.
After the last segment the page shows an end video with an end cheer and
returns to its idle loop.

The page exists in two revisions, which are modelled side by side:
`assets/js/app.js`, served from the site under `/assets/`, and
`api/app.js`, served from the repository's raw GitHub URL. They differ in
three ways:

- the switch rule of the tick: assets demands a new shape *and* 110 ms
  since the last switch, api either one;
- the idle bookkeeping of a request: the assets `finally` makes the page
  idle as soon as the reply is installed, while api stays busy until the
  end sequence;
- how media paths are built.

The endpoint is `api/generate.py`. Despite its name, it is a JavaScript
request handler.

The modules, in dependency order:

- `Text`: JavaScript white space, `trim`, and `join`.
- `Classifier`: `getSmartMouthShape` and the tick's silence test, as
  integer threshold functions over the analyser's byte snapshots.
- `Clips`: the clip library `mouthShapes`, the interlude cheers, and each
  revision's paths and URLs.
- `Selector`: `getRandomVideo`, the draw that avoids the last clip of a
  shape and keeps a history capped at 20 entries.
- `Timing`: the switch rule, the 700 ms silence hold, and the end-cheer
  delay.
- `Session`: the page as one value (`Page`) and one function per thing
  that happens to it: the tick, media events, timers, the reply, and the
  buttons.
- `Events`: every such thing as one `Event`, the `Trace` of a sequence of
  events, and the invariant `Inv`, which every event keeps.
- `Runs`: whole runs, among them:
  - a speech of n segments played through;
  - the stop button;
  - a second request in each revision;
  - the buttons pressed twice;
  - the switch rules.
- `Transcript`: the transcript panel's grouping of sentences into
  paragraphs, with both revisions' loops.
- `Generate`: the endpoint. It covers:
  - request validation;
  - the `[cheering]` normaliser, split, trim and filter;
  - the text-to-speech loop;
  - the status of every reply.
- `Engine`: the page's script as a class. Its fields are the script's
  variables. Each function and handler of the script is a method that
  updates those fields in place. Each method is proved to take the object
  from its old snapshot to the page the matching `Session` step gives, and
  each handler is proved to keep `Events.Inv`.

## Model

| member | source | states |
|---|---|---|
| Text.Trim | assets/js/app.js:317 | `s.trim()`: the result is no longer than `s`, it is empty exactly when `s` is all JavaScript white space, and otherwise it neither starts nor ends with white space |
| Text.TrimIdempotent | api/generate.py:6 | trimming a trimmed string changes nothing |
| Text.JoinAppend | assets/js/app.js:201 | joining a concatenation puts exactly one separator between the two joins |
| Classifier.ClassifyByMeans | assets/js/app.js:219-229 | definition: `getSmartMouthShape` as written, over the real volume and band means, with `coin` as the `Math.random()` draw; `Classifier.Classify` is proved equal to it |
| Classifier.Classify | assets/js/app.js:219-229 | the classifier in integer arithmetic equals the source's classifier over averages. Below a volume of 3 it gives `closed`. In [3,8) it gives `narrow` exactly when the high mean exceeds 45, else `neutral`. In [8,14) it gives `open` exactly when the mid mean exceeds 55, else `neutral`. In [14,20) it gives `open` above a mid mean of 65, otherwise `express` or `wide_open` by the 0.4 draw. From 20 up it gives `wide_open` or `express` by the 0.6 draw. api/app.js:236-256 is the same |
| Classifier.LowBandIgnored | assets/js/app.js:221 | the low band (bins 0-7) is computed but never consulted: snapshots equal on bins 8-63 classify alike |
| Classifier.Silent | assets/js/app.js:236-238 | the silence test holds exactly when the mean of all frequency bins is below 1.5 |
| Classifier.DeviationSum | assets/js/app.js:220 | the sum of absolute deviations from 128 lies between 0 and 128 per sample |
| Clips.AssetsLibraryWellFormed | assets/js/app.js:63-70 | every assets shape has at least four clips, no repeats, and no empty entry |
| Clips.ApiLibraryWellFormed | api/app.js:40-47 | the same for the api library |
| Clips.LibraryWellFormed | api/app.js:40-47 | in either revision, every shape's library has at least four distinct, non-empty clips, so a recorded clip is always truthy |
| Clips.AssetsEntriesPrefixed | assets/js/app.js:63-70 | every assets library entry already starts with `mouth-shapes/` |
| Clips.ClipRequest | assets/js/app.js:248 | definition: the name the tick (and the interlude at :284) passes to `switchVideo` for a drawn clip: assets prepends `mouth-shapes/` to an entry that already carries it, api passes the entry itself |
| Clips.VideoPath | assets/js/app.js:127 | definition: the full path `switchVideo` compares with `src` and assigns: `/assets/videos/` plus the name in assets, the raw GitHub base plus the name in api (api/app.js:108) |
| Clips.PathHeads | assets/js/app.js:126 | an assets video path starts with `/` (root-relative); an api path (api/app.js:108) starts with `h` (an absolute URL) |
| Clips.MidCheerFiles | assets/js/app.js:72 | there are four interlude cheers in each revision |
| Clips.EndCheerDistinct | assets/js/app.js:157 | the end cheer `cheer2.mp3` is none of the four interlude cheers |
| Clips.AssetsClipPathDoubled | assets/js/app.js:247 | the tick asks for every assets clip under a doubled `mouth-shapes/mouth-shapes/` directory |
| Selector.PickIndex | assets/js/app.js:212 | `Math.floor(u * n)` is an index below `n`, the integer part of `u * n` |
| Selector.Without | assets/js/app.js:211 | `filter(v => v !== x)` keeps exactly the entries other than `x` |
| Selector.WithoutDistinct | assets/js/app.js:211 | on a list without repeats the filter drops at most one entry, and none when `x` is absent |
| Selector.Pool | assets/js/app.js:209-211 | the candidates are clips of the list; they are not empty when the list is not; when the list has two or more clips, they exclude the last-used clip |
| Selector.PushCapped | assets/js/app.js:214-215 | after the push and the shift, the new clip is the newest entry. Below the cap the history just grows. At the cap the oldest entry is dropped. The length never passes 20. api/app.js:229-232 is the same |
| Selector.Draw | assets/js/app.js:206-217 | an empty list gives `null` and the memory is untouched. Otherwise the clip is from the list, it becomes the shape's last-used clip, and it is pushed onto the capped history. With two or more clips it differs from the previous last-used clip |
| Selector.Draws | assets/js/app.js:206-217 | a series of draws gives one clip of the list per draw |
| Selector.NextDrawDiffers | assets/js/app.js:210-213 | two draws in a row for a shape with two or more clips give different clips |
| Selector.DrawsNoRepeats | assets/js/app.js:210-213 | in any series of draws for a shape with two or more clips, no draw repeats the one before it |
| Selector.NoBackToBack | assets/js/app.js:210-213 | for every way the draws fall, no clip shows twice in a row, and the first draw avoids the clip recorded before the series |
| Selector.HistoryStaysCapped | assets/js/app.js:214-215 | the history never grows past 20 entries, however many draws |
| Timing.ShouldSwitch | assets/js/app.js:244-245 | definition: the switch rule, 110 ms elapsed AND a new shape in assets, 110 ms elapsed OR a new shape in api (api/app.js:277-278) |
| Timing.AssetsRuleStricter | assets/js/app.js:244-245 | every switch the assets rule allows, the api rule (api/app.js:277-278) allows too. The assets rule never switches to the same shape. Under the api rule the same shape is switched again exactly when 110 ms have passed |
| Timing.SilenceStep | assets/js/app.js:238-243 | a loud frame stops the silence clock. A quiet frame starts the clock unless it runs (`||=`, so 0 means stopped). The mouth is forced shut exactly when the frame is quiet and more than 700 ms have passed since the clock started |
| Timing.QuietRunForcesAfterHold | assets/js/app.js:238-240 | in a run of quiet ticks starting with the clock stopped, a tick forces `closed` exactly when more than 700 ms have passed since the first tick |
| Timing.QuietRunFrom | assets/js/app.js:239-240 | once the clock runs, further quiet ticks do not move its start |
| Timing.EndCheerDelay | assets/js/app.js:154-161 | a cheer is scheduled exactly when the video is longer than 4 s, after `(duration - 4) * 1000` ms truncated to whole milliseconds |
| Timing.EndCheerLeadsEnd | assets/js/app.js:155-160 | the end cheer starts within one millisecond of four seconds before the video's end |
| Session.Resolve | assets/js/app.js:128-133 | definition: what reading `src` gives after a path is assigned: a root-relative path is resolved against the page's origin, an absolute URL is kept as it is |
| Session.SwitchVideo | assets/js/app.js:124-140 | nothing happens for an empty name or when `src` equals the full path. Otherwise the resolved URL is loaded with the given loop flag, not yet playing, and its metadata handler restarts it. The ended handler is kept. api/app.js:106-122 is the same |
| Session.LoadIdle | assets/js/app.js:143-148 | the looping idle clip is requested, the shape becomes `closed`, the selector's memory is emptied, and nothing else changes |
| Session.LoadEnd | assets/js/app.js:150-169 | the end clip is requested, and then both handlers are installed even when the switch did nothing: the one that schedules the end cheer and the one that returns to idle. Nothing else changes |
| Session.RandomVideo | assets/js/app.js:206-217 | on the page's library a clip is always drawn. It is not the shape's last clip, it becomes that clip, and it is the newest history entry |
| Session.Tick | assets/js/app.js:231-254 | a tick with no speech, a paused speech, or an interlude only lets the frame lapse. Otherwise it updates the silence clock and asks for the next frame. When the revision's rule allows, it switches to a fresh clip of the target shape and records the shape and the time. Only the visual and the tick's variables change. api/app.js:258-290 is the same with its own rule |
| Session.EndSequence | assets/js/app.js:291-297 | the end video is requested, and the page is idle with the input enabled and empty |
| Session.MidCheer | assets/js/app.js:275-289 | the frame is cancelled, the interlude flag is set, one of the four cheers plays at 0.7 (0 when muted), and one more interlude timer is pending. A `closed` clip is drawn and shown, but the mouth shape is not recorded |
| Session.PlayNext | assets/js/app.js:299-314 | past the last segment it is the end sequence. When the element at the cursor is already the current speech, only its volume is set to 1 (0 when muted): `setupLipSync` (assets/js/app.js:256-260) throws on a second `createMediaElementSource` for it, so it is not restarted and nothing else changes. Otherwise that element becomes the current speech and plays at volume 1 (0 when muted) with a frame armed, and a speech audio it replaces while that one plays goes on playing |
| Session.SpeechEnded | assets/js/app.js:306-313 | the segment stays paused at its end, the frame is cancelled, and the cursor moves on. Then either an interlude starts, or after the last segment the end sequence makes the page idle |
| Session.Advance | assets/js/app.js:306-313 | definition: the speech audio's `onended` after `onpause` has cancelled the frame: the cursor moves on, then `playMidCheer(playNext)` while a segment is left, `endSequence` otherwise |
| Session.OrphanEnded | assets/js/app.js:306-313 | a replaced speech audio that ends still moves the shared cursor and cancels the shared frame |
| Session.CheerTimerFired | assets/js/app.js:282-288 | definition: the interlude's two 6000 ms timers as one event: the cheer audio paused, the interlude flag cleared, one timer fewer, then `playNext` |
| Session.CheerEnded | assets/js/app.js:279-281 | definition: the cheer audio ends and is paused; it has no `onended` handler, so nothing else changes |
| Session.MetadataLoaded | assets/js/app.js:153-163 | the clip plays from the start, and under the end video's handler a video longer than 4 s adds its end-cheer timer. Nothing else changes |
| Session.EndCheerFired | assets/js/app.js:156-160 | the end cheer replaces the cheer audio at 0.7 (0 when muted), exactly that one timer is removed, and no interlude starts |
| Session.VisualEnded | assets/js/app.js:165-168 | without the end video's ended handler the clip stops on its last frame. With it, the page returns to the looping idle clip with a forgotten memory and restores the ambient to 0.3 (0 with music off) |
| Session.Submit | assets/js/app.js:316-320 | nothing happens for a blank prompt or a busy page. Otherwise the page is busy, the input disabled, and one more request is under way |
| Session.Install | assets/js/app.js:344-352 | a new array holds the reply's segments, the cursor is 0, and the ambient is ducked to 0.1 (0 with music off). When the current speech is of the old array, the new first element starts playing with a frame armed, and a speech that was playing goes on as a replaced audio. The visual is unchanged |
| Session.Receive | assets/js/app.js:331-365 | a reply with audios is installed. In assets, an error reloads the idle clip and the `finally` makes the page idle in every case. In api (api/app.js:392-429), only an error makes the page idle |
| Session.PauseClicked | assets/js/app.js:375-383 | during an interlude the cheer is toggled. Otherwise the speech is toggled, and the frame is armed exactly when the speech resumes. With no speech nothing changes |
| Session.MuteClicked | assets/js/app.js:385-390 | the mute flag flips, the speech volume becomes 0 or 1, the cheer volume 0 or 0.7, and nothing else changes |
| Session.StopClicked | assets/js/app.js:413-427 | speech and cheer are paused, the frame cancelled, the idle clip reloaded, the ambient restored, the interlude flag cleared, the page idle, and the cursor set to the segment count. Timers and replaced audios are left alone |
| Session.MusicClicked | assets/js/app.js:392-398 | definition: the music flag flips and the ambient goes to 0.3 when the music is now on, 0 when it is off |
| Session.DiceClicked | assets/js/app.js:406-411 | definition: the input is set to `Give a presidential speech about <topic>.` and `generateSpeech` runs as `Session.Submit` |
| Session.Typed | assets/js/app.js:317 | definition: typing into the enabled input sets the text `generateSpeech` reads from it |
| Session.Initial | assets/js/app.js:369-372 | definition: the declared variables (assets/js/app.js:32-46) followed by `loadIdleVideo()` |
| Events.SwitchKeepsVisualOk | assets/js/app.js:126-132 | every assets `src` the page sets is reported under the page's origin |
| Events.InitialInv | assets/js/app.js:369-372 | the page as loaded keeps the invariant |
| Events.LoadIdleKeeps | assets/js/app.js:143-148 | `loadIdleVideo` keeps the invariant |
| Events.EndSequenceKeeps | assets/js/app.js:291-297 | `endSequence` keeps the invariant |
| Events.PlayNextKeeps | assets/js/app.js:299-314 | `playNext` keeps the invariant |
| Events.AdvanceKeeps | assets/js/app.js:306-313 | the speech audio's ended handler keeps the invariant |
| Events.TickKeeps | assets/js/app.js:231-254 | a tick keeps the invariant: the history stays capped, and a pending frame belongs to a playing speech |
| Events.InstallKeeps | assets/js/app.js:344-352 | installing a reply keeps the invariant |
| Events.ReceivePlayableKeeps | assets/js/app.js:344-352 | a playable reply keeps the invariant in both revisions |
| Events.ReceiveFailedKeeps | assets/js/app.js:353-365 | an error reply keeps the invariant in both revisions |
| Events.ReceiveKeeps | assets/js/app.js:331-365 | every reply keeps the invariant |
| Events.StopKeeps | assets/js/app.js:413-427 | the stop button keeps the invariant |
| Events.VisualEndedKeeps | assets/js/app.js:165-168 | the end of a clip keeps the invariant |
| Events.SpeechEndedKeeps | assets/js/app.js:306-313 | the end of a segment keeps the invariant |
| Events.OrphanEndedKeeps | assets/js/app.js:306-313 | the end of a replaced segment keeps the invariant |
| Events.CheerTimerKeeps | assets/js/app.js:282-288 | the interlude timeout keeps the invariant |
| Events.CheerEndedKeeps | assets/js/app.js:279-281 | the end of the cheer audio keeps the invariant |
| Events.MetadataKeeps | assets/js/app.js:134-138 | a metadata event keeps the invariant |
| Events.EndCheerKeeps | assets/js/app.js:156-160 | the end-cheer timer keeps the invariant |
| Events.SubmitKeeps | assets/js/app.js:316-320 | `generateSpeech` up to its fetch keeps the invariant: the input is enabled exactly when the page is idle |
| Events.DiceKeeps | assets/js/app.js:406-411 | the dice button keeps the invariant |
| Events.PauseKeeps | assets/js/app.js:375-383 | the pause button keeps the invariant |
| Events.MuteKeeps | assets/js/app.js:385-390 | the mute button keeps the invariant: the volumes follow the mute flag |
| Events.MusicKeeps | assets/js/app.js:392-398 | the music toggle keeps the invariant: the ambient is silent with the music off |
| Events.TypedKeeps | assets/js/app.js:429-434 | typing keeps the invariant |
| Events.Step | assets/js/app.js:369-434 | definition: each event that can happen dispatched to its handler: frames to the tick, media ends and timers to their handlers, typing, Enter, the reply and the buttons to theirs |
| Events.StepKeepsInv | assets/js/app.js:369-434 | every event that can happen keeps the invariant |
| Events.TraceKeepsInv | assets/js/app.js:369-434 | every page reachable by a trace of events keeps the invariant |
| Events.FramesSkipOnlyInInterludes | assets/js/app.js:232 | on a reachable page a pending frame always finds a playing speech, so of the tick's three guards only `isCheering` can stop it |
| Events.EndedHandlerStays | assets/js/app.js:165-168 | once `loadEndVideo` has installed its ended handler, no event removes it |
| Runs.NaturalEvents | assets/js/app.js:306-313 | the event list the model builds for a speech of n segments in which each plays to its end has 2(n-1)+1 events; that this list plays through is `Runs.NaturalRunFrom` |
| Runs.NaturalInterludes | assets/js/app.js:306-313 | the list of `Runs.NaturalEvents` for n segments holds exactly n-1 interlude timeouts. It counts that list, not every speech that plays through |
| Runs.SegmentEndsInInterlude | assets/js/app.js:306-312 | a segment that is not the last ends: its audio stays paused, the cursor moves on, and an interlude starts with its timer pending |
| Runs.InterludeResumes | assets/js/app.js:285-288 | the interlude's timer clears the interlude and plays the segment at the cursor, with the frame armed and no audio left playing unseen |
| Runs.SegmentThenInterlude | assets/js/app.js:275-313 | a segment that is not the last ends: an interlude starts, and its timeout plays the next segment |
| Runs.LastSegmentEnds | assets/js/app.js:291-313 | the last segment ends: the end sequence runs, and the page is idle with the cursor at the segment count |
| Runs.NaturalRunFrom | assets/js/app.js:299-314 | from segment k, the remaining segments played through reach the end sequence |
| Runs.InitialQuiet | assets/js/app.js:369-372 | the page as loaded is idle, with nothing playing and nothing pending |
| Runs.ReceiveStarts | assets/js/app.js:344-352 | an answer of n audios on a quiet page starts segment 0 with a frame armed |
| Runs.RequestTrace | assets/js/app.js:429-434 | typing a prompt and pressing Enter on an idle page sends one request, and its answer is received |
| Runs.RequestSpeaks | assets/js/app.js:316-365 | a prompt, Enter and an answer of n audios on a quiet page start segment 0 of a new array. assets is then idle again with the input enabled and the prompt still in it; api (api/app.js:375-430) stays busy with its input disabled |
| Runs.SpeechPlaysThrough | assets/js/app.js:299-365 | a whole request played through ends in the end sequence, idle, with the cursor at n and the end handler installed |
| Runs.RequestNoInterlude | assets/js/app.js:429-434 | the event list of one request (typing, Enter, the answer) holds no interlude timeout |
| Runs.SpeechInterludes | assets/js/app.js:306-313 | the event list of a request followed by `Runs.NaturalEvents` for n segments holds n-1 interlude timeouts. It counts that list; that it plays through is `Runs.SpeechPlaysThrough` |
| Runs.SpeechPlaysThroughFromLoad | assets/js/app.js:369-372 | the played-through run is possible from the page as loaded |
| Runs.StopEndsSequence | assets/js/app.js:425 | after stop, the next `playNext` goes straight to the end sequence |
| Runs.StopDuringInterlude | assets/js/app.js:413-427 | stop does not cancel the interlude timer, so when it fires the end video comes on although nothing was playing |
| Runs.SecondRequest | assets/js/app.js:357-365 | assets accepts a second Enter during the speech, and its answer installs a new array whose first segment replaces the playing one, which goes on playing unseen. In api (api/app.js:420-429) the input is still disabled, so the second Enter never reaches it |
| Runs.SecondEnterAssets | assets/js/app.js:316-320 | on the page the first answer leaves in assets, Enter sends a request whose answer leaves one replaced audio playing |
| Runs.SecondEnterApi | api/app.js:379-380 | on the api page during the speech the input is still disabled, so no Enter reaches it and no answer is due |
| Runs.EnterAnswerTrace | assets/js/app.js:429-434 | an Enter that sends a request, followed by its answer, is a possible run that ends in the answer received |
| Runs.SecondAnswer | assets/js/app.js:299-305 | an answer received while a segment plays leaves that segment playing as a replaced audio |
| Runs.PlayNextTwice | assets/js/app.js:256-305 | a second `playNext` at the same index changes nothing |
| Runs.ReplyDuringInterlude | assets/js/app.js:282-288 | in assets an answer can arrive during an interlude, whose timer nothing cancels. Its first segment plays at once; the timer then ends the interlude and leaves that segment playing, with nothing replaced |
| Runs.ReplyStartsDuringInterlude | assets/js/app.js:344-352 | an answer received during an interlude starts its first segment at once, with the interlude and its timer still pending |
| Runs.PendingTimerFindsCurrent | assets/js/app.js:284-288 | an interlude timer that fires while the segment at the cursor already plays ends the interlude and leaves that segment playing, with its frame |
| Runs.SecondTimerFires | assets/js/app.js:284-288 | with two interlude timers pending, the second to fire finds the segment the first one started and only takes its own count down |
| Runs.SubmitTwice | assets/js/app.js:318 | a second Enter while a request is under way changes nothing |
| Runs.MuteTwice | assets/js/app.js:385-390 | muting twice restores the page, volumes included |
| Runs.PauseTwice | assets/js/app.js:375-383 | pausing twice restores the page, except that the frame ends up armed exactly when the speech plays |
| Runs.MusicTwice | assets/js/app.js:392-398 | toggling the music twice leaves the page as it was except the ambient, which goes to the full level for the music state: 0.3 with the music on, 0 with it off. With the music on, this undoes the duck to 0.1 during a speech |
| Runs.ClipEndUndoesDuck | assets/js/app.js:165-168 | the end handler left installed returns a later ending clip to idle and the ambient to 0.3 while a speech plays |
| Runs.ApiSwitchIdempotent | api/app.js:108-110 | in api a second switch to the same clip changes nothing |
| Runs.AssetsSwitchRestarts | assets/js/app.js:126-127 | in assets the `src` the element reports is never the root-relative path, so asking again for the playing clip restarts it |
| Runs.AssetsSwitchRule | assets/js/app.js:245-250 | an assets switch needs a new shape and 110 ms; it records the shape and the time |
| Runs.AssetsSwitchesSpaced | assets/js/app.js:245-250 | two switching assets ticks in a row are at least 110 ms apart |
| Runs.ApiShapeChangeSwitches | api/app.js:277-278 | in api a new target shape switches at once, however recent the last switch |
| Runs.ApiSameShapeReswitches | api/app.js:277-278 | in api the same shape is switched again, to another clip, once 110 ms have passed |
| Runs.LoadIdleForgets | assets/js/app.js:146-147 | after `loadIdleVideo` no shape has a last-used clip and the history is empty |
| Transcript.Paragraphs | assets/js/app.js:198-203 | definition: the panel's paragraphs, the sentences in groups of three, each joined by a space |
| Transcript.Groups | assets/js/app.js:198-203 | the sentences fall into ceil(n/3) groups, each of one to three sentences, all but the last of three |
| Transcript.GroupsKeepSentences | assets/js/app.js:198-203 | grouping loses, adds and reorders no sentence |
| Transcript.GroupIsSlice | assets/js/app.js:201 | group k is `sentences.slice(3k, 3k + 3)` |
| Transcript.GroupsAppend | assets/js/app.js:200 | the groups of a whole number of groups followed by more sentences are those of each part |
| Transcript.JoinEach | assets/js/app.js:201 | each paragraph is its group joined by a space |
| Transcript.ParagraphIsSlice | assets/js/app.js:201 | paragraph k is the joined slice from 3k to 3k + 3 |
| Transcript.ParagraphsAreSlices | assets/js/app.js:198-203 | every paragraph is its joined slice |
| Transcript.GroupByStride | assets/js/app.js:198-203 | the assets stride loop builds exactly the paragraphs |
| Transcript.GroupByCollect | api/app.js:196-210 | the api `forEach` loop with its `currentGroup` builds exactly the same paragraphs |
| Transcript.Render | assets/js/app.js:174-204 | a blank or emptied text shows the placeholder. A text with no sentences shows as one paragraph. Otherwise it shows ceil(n/3) paragraphs, each the joined slice of its three sentences |
| Generate.MarkerAt | api/generate.py:41 | definition: `/\[cheering\]/i` matches at the start of the string, with the `i` flag's case folding applied to ASCII letters only |
| Generate.Markers | api/generate.py:41 | definition: the number of matches of `/\[cheering\]/gi`, scanning left to right and resuming after each match |
| Generate.ReplaceMarkers | api/generate.py:52-53 | definition: `replace(/\[cheering\]/gi, cb)`, where `cb` gives `[cheering]` while the `first` flag is set (and clears it) and the empty string after; with the flag clear it is the plain deletion |
| Generate.InsertMarker | api/generate.py:42-50 | definition: `[cheering]` spliced in as a sentence at index floor(n/2) of the sentence split when there are more than two sentences, otherwise ` [cheering]` appended |
| Generate.Normalise | api/generate.py:41-54 | definition: the normaliser as written: insert a marker when there is none, one `replace` pass that keeps the first match and deletes the rest when there are several, the text unchanged with one |
| Generate.NormaliseIntended | api/generate.py:40-54 | definition: the normaliser as the comment at line 40 intends: the same, except that after the first match every marker is removed, including one a deletion forms |
| Generate.MarkersAroundSpace | api/generate.py:49 | a space is never part of a marker, so it splits the marker count |
| Generate.MarkersAroundMatch | api/generate.py:41 | a marker spliced into a text adds exactly one to the count of `/\[cheering\]/gi` matches |
| Generate.JoinWithoutMarkers | api/generate.py:47 | marker-free pieces joined by spaces hold no marker |
| Generate.FirstMarker | api/generate.py:51-54 | the first match of the left-to-right scan: nothing before it matches, and the rest of the count comes after it |
| Generate.ReplaceLength | api/generate.py:53 | each deleted match removes its ten characters, and a kept first match keeps its length |
| Generate.KeepFirstDeletesLater | api/generate.py:52-53 | with several markers the callback keeps the text before the first, writes the first in lower case, and deletes every later match |
| Generate.KeepFirstMarker | api/generate.py:52-53 | the scan with the callback and its `first` flag computes exactly the replacement |
| Generate.Purge | api/generate.py:53 | repeated deletion leaves no marker at all |
| Generate.InsertMarkerLeavesOne | api/generate.py:42-50 | inserting into a marker-free text leaves exactly one marker, whether it is spliced in at floor(n/2) or appended |
| Generate.OneMarkerUnchanged | api/generate.py:41-54 | a text with exactly one marker is left unchanged |
| Generate.IntendedLeavesOneMarker | api/generate.py:40-54 | the corrected normaliser always leaves exactly one marker |
| Generate.SplitMarkers | api/generate.py:57 | splitting on the marker gives one piece more than there are markers |
| Generate.SplitAroundMatch | api/generate.py:57 | splitting a marker-free prefix, a marker, and a rest gives the prefix and then the rest's pieces |
| Generate.TrimmedNonEmpty | api/generate.py:57 | `.map(trim).filter(Boolean)` gives non-empty pieces with no white space at either end, no more than there were |
| Generate.VisiblePiecesKept | api/generate.py:57 | pieces that are not all white space each give one segment |
| Generate.Parts | api/generate.py:57 | there are at most one more part than markers |
| Generate.TwoMarkersSplit | api/generate.py:57 | two whole markers split a text into the three pieces around them |
| Generate.DeletionFormsMarker | api/generate.py:51-54 | as written, a whole marker inside a broken one (`[che[cheering]ering]`) after a first marker leaves two markers, and so three pieces |
| Generate.NestedExample | api/generate.py:51-58 | the reply `A [cheering] B [che[cheering]ering] C` keeps two markers and yields three speech segments |
| Generate.IntendedAtMostTwoParts | api/generate.py:57-58 | the corrected normaliser splits into exactly two pieces, so at most two segments |
| Generate.Validate | api/generate.py:2-11 | 405 exactly for a method other than POST. 400 exactly for a POST whose prompt is missing or blank. 500 for missing keys, and for a body or prompt the handler throws on. No reply exactly when the request may proceed |
| Generate.Synthesise | api/generate.py:60-76 | one text-to-speech call per part, in order. It succeeds exactly when every call succeeds, with one audio per part, each the audio of its part |
| Generate.SentPromptAccepted | api/generate.py:6 | a prompt the page sends, already trimmed (assets/js/app.js:317), passes the blank check on a configured endpoint |
| Generate.Respond | api/generate.py:28-82 | every rejection of `Validate` is returned as is. The status is 200, 400, 405 or 500. It is 200 exactly when the request is valid, the completion has non-blank text, the normalised text has parts, and every part is synthesised. A 200 carries the normalised text as transcript and one audio per part, in order |
| Generate.Handle | api/generate.py:1-82 | the endpoint as written, with the one-pass normaliser of lines 51-54: the statuses of `Generate.Respond`, and a 200 carries at least one audio and at most one more than the markers its transcript keeps |
| Generate.HandleIntended | api/generate.py:40-58 | the endpoint with the normaliser the comment at line 40 intends: a 200 carries one or two audios |
| Engine.LipSyncPage.constructor | assets/js/app.js:32-46 | the declarations and `loadIdleVideo()` give the initial page, which keeps the invariant |
| Engine.LipSyncPage.SwitchVideo | assets/js/app.js:124-140 | updates the visual as `Session.SwitchVideo` does, and nothing else |
| Engine.LipSyncPage.LoadIdleVideo | assets/js/app.js:143-148 | the fields become `Session.LoadIdle` of the old page |
| Engine.LipSyncPage.LoadEndVideo | assets/js/app.js:150-169 | the fields become `Session.LoadEnd` of the old page |
| Engine.LipSyncPage.GetRandomVideo | assets/js/app.js:206-217 | returns the clip `Session.RandomVideo` draws and updates only the selector's memory to match |
| Engine.LipSyncPage.SyncLipSync | assets/js/app.js:231-254 | the fields become `Session.Tick` of the old page, and the invariant is kept. api/app.js:258-290 is the same |
| Engine.LipSyncPage.PlayMidCheer | assets/js/app.js:275-289 | the fields become `Session.MidCheer` of the old page |
| Engine.LipSyncPage.EndSequence | assets/js/app.js:291-297 | the fields become `Session.EndSequence` of the old page |
| Engine.LipSyncPage.PlayNext | assets/js/app.js:299-305 | the fields become `Session.PlayNext` of the old page, including the return when the element at the cursor is already the current speech |
| Engine.LipSyncPage.Advance | assets/js/app.js:306-313 | the fields become `Session.Advance` of the old page |
| Engine.LipSyncPage.OnSpeechEnded | assets/js/app.js:306-313 | the fields become `Session.SpeechEnded` of the old page, and the invariant is kept |
| Engine.LipSyncPage.OnReplacedEnded | assets/js/app.js:306-313 | the fields become `Session.OrphanEnded` of the old page, and the invariant is kept |
| Engine.LipSyncPage.OnInterludeTimeout | assets/js/app.js:282-288 | the fields become `Session.CheerTimerFired` of the old page, and the invariant is kept |
| Engine.LipSyncPage.OnCheerEnded | assets/js/app.js:279-281 | the fields become `Session.CheerEnded` of the old page, and the invariant is kept |
| Engine.LipSyncPage.OnMetadata | assets/js/app.js:153-163 | the fields become `Session.MetadataLoaded` of the old page, and the invariant is kept |
| Engine.LipSyncPage.OnEndCheerTimeout | assets/js/app.js:156-160 | the fields become `Session.EndCheerFired` of the old page, and the invariant is kept |
| Engine.LipSyncPage.OnVisualEnded | assets/js/app.js:165-168 | the fields become `Session.VisualEnded` of the old page, and the invariant is kept |
| Engine.LipSyncPage.OnInput | assets/js/app.js:429-434 | the fields become `Session.Typed` of the old page, and the invariant is kept |
| Engine.LipSyncPage.GenerateSpeech | assets/js/app.js:316-320 | the fields become `Session.Submit` of the old page, and the invariant is kept |
| Engine.LipSyncPage.InstallSpeech | assets/js/app.js:344-352 | the fields become `Session.Install` of the old page |
| Engine.LipSyncPage.OnReply | assets/js/app.js:331-365 | the fields become `Session.Receive` of the old page, and the invariant is kept. api/app.js:392-429 is the same |
| Engine.LipSyncPage.OnPause | assets/js/app.js:375-383 | the fields become `Session.PauseClicked` of the old page, and the invariant is kept |
| Engine.LipSyncPage.OnMute | assets/js/app.js:385-390 | the fields become `Session.MuteClicked` of the old page, and the invariant is kept |
| Engine.LipSyncPage.OnMusic | assets/js/app.js:392-398 | the fields become `Session.MusicClicked` of the old page, and the invariant is kept |
| Engine.LipSyncPage.OnDice | assets/js/app.js:406-411 | the fields become `Session.DiceClicked` of the old page, and the invariant is kept |
| Engine.LipSyncPage.OnStop | assets/js/app.js:413-427 | the fields become `Session.StopClicked` of the old page, and the invariant is kept |

## Left out

- Network calls become parameters: the page's `fetch` to `/api/generate` becomes a `Reply`, and the endpoint's chat-completion and text-to-speech calls become a `Completion` and a function `tts`. Status texts, error messages and the base64 audio bytes are not modelled; audios are counted or kept as opaque strings.
- Web Audio (`setupLipSync`): the analyser's byte snapshots become parameters of the tick, with lengths 128 and 256 as `fftSize = 256` gives. The audio graph is not modelled.
- Timers and animation frames are events. The two 6000 ms interlude timers fire together, as one event. Stop cancels no timer, which matches the source.
- `Math.random()`, `Date.now()` and the dice topic list are parameters: each draw is a number in [0, 1), the clock is an integer, and the topic is a string.
- Play promises and their rejection (autoplay blocking), `unlockMedia`, `ensureAmbientPlaying` and `currentTime` are left out: `play()` is taken to start playback. A video of duration `NaN` counts as 0 (`|| 0`), and the model takes a duration of 0 or more.
- DOM detail is left out: opacity, muting of the visual, the progress bar, the load bar, `playClick`, the lightning flash, `updateMusicUI`, and the transcript's HTML and placeholder text.
- Transcript.Render: the cleanup regexes and the sentence split of `setTranscript` are parameters (`cleaned`, `sentences`), not computed.
- Generate.Handle, Generate.HandleIntended: the endpoint's clean-up regexes (gibberish IDs, spaces, newlines) and its sentence split are parameters (`cleaned`, `sentences`). Generate.HandleIntended still requires what the split guarantees: a marker-free text splits into marker-free sentences.
- The system prompt, the model name, temperature and voice settings of the endpoint are constants sent to external services and have no effect in the model.
- api/generate.js and server.js are not part of this model.
- The cheer audio an end or interlude cheer replaces is taken to stop; in the browser an old `Audio` would go on sounding.
- The visual's initial `src` is taken to be the empty string.
- `getRandomVideo`'s `null` for a shape without clips cannot arise in the page, because every shape has clips (Clips.LibraryWellFormed). `Selector.Draw` still models it.

## Findings

| source | as written | input that shows it | evidently intended | confidence | as-written member | corrected member |
|---|---|---|---|---|---|---|
| api/generate.py:51-54 | with several markers, one `replace` pass keeps the first match and deletes the rest. A deleted match inside a broken marker joins its halves into a new marker | chat reply `A [cheering] B [che[cheering]ering] C`: the result keeps two markers and splits into three segments | exactly one `[cheering]` (the comment at line 40), so at most two segments | not executed | Generate.DeletionFormsMarker | Generate.IntendedLeavesOneMarker |

`Generate.Handle` models the endpoint as written, so it bounds the audios only by the markers the transcript keeps. `Generate.HandleIntended` is the same handler over the corrected normaliser (`NormaliseIntended`). `Generate.NestedExample` gives the concrete reply. `Generate.IntendedAtMostTwoParts` states the consequence for the segments.
