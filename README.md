# Park skit: phase machine and audio timeline

A model of the core of a pygame skit. Two stick figures walk in, collide, trade lines,
bump into each other, bounce around, and one of them is abducted by a UFO. The model
covers:

- the `AnimationController` phase machine that drives the characters and the sounds;
- the `Character` objects it moves;
- the playback bookkeeping and dialogue preloading of `AudioManager`;
- the part of the TikTok exporter that records a timeline of audio events while the skit
  runs frame by frame, then lays the sound clips on that timeline.

The model has two layers.

- **Values.** `Characters.Body`, `Phases.Ctrl` and `Recorder.Session` are the states as
  records.
  - `Phases.Step` is one tick of `AnimationController.update`.
  - `Recorder.ExportFrame` is one pass of the exporter's loop.
  - `Mixdown.Placements` is the clip list `create_audio_track` builds.
  - The properties of the skit are proved about these functions (`PhaseProps`, `Recorder`,
    `Mixdown`).
- **Objects.** `Characters.Character`, `Audio.AudioManager` and
  `Animation.AnimationController` are classes whose methods update their fields in place, as
  the Python objects do.
  - Each method's postcondition ties its new state to the value function of the same name.
  - The exporter's loop (`Recorder.RecordExport`) and `create_audio_track`
    (`Mixdown.CreateAudioTrack`) are loops proved against `Recorder.Export` and
    `Mixdown.Placements`.

Sound playback is modelled as the list of mixer calls (`Play`, `PlayLooping`, `Stop`) each
operation makes, in order, together with the manager's single "current sound" slot.

Several things the skit reads from pygame are inputs to a tick (`Phases.Env`):

- what `walking_sound.get_num_channels()` reports;
- the wall clock read by the finished phase.

Loading a sound file is a lookup in a map from path to sound.

Quirks of the code that the model keeps:

- A cat start time of 0 means "not started", so the cat timer is armed again on every tick
  at time 0.
- The meow gate `progress >= 0.55` is kept as a real division; it is proved equal to
  `elapsed >= 385`.
- Dialogue phases advance only when the elapsed time is strictly greater than the line's
  duration. The second final line adds a 400 ms grace.
- The recorder's `if walking_start_time:` treats a span opened at time 0 as no span.
- `if animation.finished_time` treats a finish time of 0 as unset.
- A QUIT event ends the loop after the current frame without closing the open walking span.
- The meow event needs a phase change into the cat run with `frame_count > 0`. The cat run
  is the first frame's phase and is never re-entered, so no meow event is ever recorded
  (`Recorder.NoMeowEver`).

The meow is meant to fire once per run. The code plays it at most once:
it plays only if a meow sound was loaded and some tick of the cat run falls between 385 and
700 ms. The model follows the code (`PhaseProps.MeowPlaysAtMostOnce`).

## Model

| member | source | states |
|---|---|---|
| Characters.Character.constructor | src/character.py:19-45 | a new character is at (x, y) with the configured width, height and speed, direction 1, every flag false and both animation frames 0 |
| Characters.Character.Move | src/character.py:180-182 | only `x` changes, by `speed * direction` |
| Characters.MovedShiftsOnlyX | src/character.py:180-182 | a step moves x by exactly `speed * direction` and leaves every other field as it was |
| Characters.Character.GetCenterX | src/character.py:184-186 | the centre is the midpoint of the character's span, rounded down |
| Characters.CenterLiesInBounds | src/character.py:184-190 | the centre lies inside the rectangle `get_rect` returns, at `width // 2` from its left edge |
| Characters.CollidesSymmetric | src/character.py:188-190 | overlap of two character rectangles does not depend on the order they are tested in |
| Characters.Character.SetWalking | src/character.py:192-194 | only the walking flag changes |
| Characters.Character.SetSmiling | src/character.py:196-198 | only the smiling flag changes |
| Characters.Character.SetTalking | src/character.py:200-204 | the talking flag becomes the argument; stopping to talk rewinds the talk frame to 0, starting leaves it as it was; nothing else changes |
| Characters.WithTalkingEffect | src/character.py:200-204 | the talking flag is the argument, the talk frame is 0 after stopping, starting changes only the flag, and no field other than those two changes |
| Characters.Character.SetSpeed | src/character.py:206-208 | only the speed changes |
| Characters.Character.ReverseDirection | src/character.py:210-212 | the direction is negated and nothing else changes |
| Characters.ReversedTwiceIsIdentity | src/character.py:40 | reversing twice gives back the same character, and a character facing left or right faces the other way after one reversal |
| Audio.AudioManager.constructor | src/audio.py:52-56 | a new manager has no current sound |
| Audio.AudioManager.PlaySound | src/audio.py:163-175 | a missing sound changes nothing and makes no call; any other sound is played once and becomes the current sound |
| Audio.AudioManager.PlayLoopingSound | src/audio.py:177-189 | a missing sound changes nothing; any other sound is looped and becomes the current sound |
| Audio.AudioManager.StopCurrentSound | src/audio.py:191-195 | afterwards there is no current sound; the sound that was current, if any, is stopped |
| Audio.AudioManager.IsSoundPlaying | src/audio.py:197-209 | a sound is reported playing only if it is present, is the current sound, and the mixer reports a channel for it |
| Audio.PlayingNeedsIdentity | src/audio.py:197-209 | "playing" holds for the current sound with a busy channel and fails for a missing sound, another sound, or no channel |
| Audio.StoppedIsSilent | src/audio.py:191-209 | after a stop no sound is reported playing |
| Audio.LoopingIsPlaying | src/audio.py:177-209 | a sound just looped is reported playing exactly when the mixer gives it a channel |
| Audio.LengthMsIsWholeMilliseconds | src/audio.py:264-275 | `int(get_length() * 1000)` is the clip length in whole milliseconds, rounded down |
| Audio.AudioManager.PreloadDialogue | src/audio.py:228-284 | the clip map and the duration map have the same keys; a text gets an entry exactly when it is in the script and its clip(s) load, and the entry is the one the loading rule gives |
| Audio.WatchItNeedsBothClips | src/audio.py:255-267 | "WATCH IT!" gets an entry exactly when both of its files load; the entry is the pair and its duration is the longer of the two |
| Audio.OtherTextsNeedTheirFile | src/audio.py:269-277 | any other text gets an entry exactly when it is in the file table and its file loads; the entry is that single clip and its length |
| Audio.OnlyWatchItIsDual | src/audio.py:255-277 | no text except "WATCH IT!" is ever stored as a pair of clips |
| Animation.AnimationController.constructor | src/animation.py:47-117 | the controller starts in the cat run with every timer 0, the bump counter at 0 and approaching, no dialogue, no finish time and the meow not played; its dialogue clips and durations are what preloading the five-line script gives |
| Animation.AnimationController.Update | src/animation.py:119-149 | one tick changes the controller, both characters and the current sound exactly as `Phases.Step` does, making the calls it returns |
| Animation.AnimationController.UpdateCatRun | src/animation.py:151-182 | the cat-run tick as `Phases.UpdateCatRun` |
| Animation.AnimationController.UpdateWalkingIn | src/animation.py:188-203 | the walk-in tick as `Phases.UpdateWalkingIn` |
| Animation.AnimationController.ToCollision | src/animation.py:205-237 | entry into the collision as `Phases.ToCollision` |
| Animation.AnimationController.Halt | src/animation.py:208-217 | one character stands still, stops walking, smiles and talks or stops talking as told, and nothing else changes (used again by the entry into "Okay I have to go to work") |
| Animation.AnimationController.SayWatchIt | src/animation.py:229-237 | "WATCH IT!" as a pair plays both clips directly, as a single clip goes through `play_sound`, and is silent when it did not load |
| Animation.AnimationController.SayLine | src/animation.py:259-260 | a one-speaker line goes through `play_sound` when it loaded and is silent otherwise |
| Animation.AnimationController.UpdateCollision | src/animation.py:239-246 | the collision tick as `Phases.UpdateCollision` |
| Animation.AnimationController.ToKiddingDialogue | src/animation.py:248-260 | entry into "Just kidding" as `Phases.ToKiddingDialogue` |
| Animation.AnimationController.SetTalkers | src/animation.py:256-257 | `set_talking` on both characters, each as told, and nothing else changes |
| Animation.AnimationController.UpdateKiddingDialogue | src/animation.py:262-268 | the "Just kidding" tick as `Phases.UpdateKiddingDialogue` |
| Animation.AnimationController.ToHeyYaDialogue | src/animation.py:270-282 | entry into "Hey ya!" as `Phases.ToHeyYaDialogue` |
| Animation.AnimationController.UpdateHeyYaDialogue | src/animation.py:284-290 | the "Hey ya!" tick as `Phases.UpdateHeyYaDialogue`, making no sound call |
| Animation.AnimationController.ToBumpSequence | src/animation.py:292-306 | entry into the bump sequence as `Phases.ToBumpSequence` |
| Animation.AnimationController.SetOff | src/animation.py:296-305 | one character smiles, walks at speed 3 in the given direction, and nothing else changes (used again by the walk-out entry) |
| Animation.AnimationController.Face | src/animation.py:318-343 | `direction = d` on one character changes only its direction |
| Animation.AnimationController.FaceBoth | src/animation.py:322-323 | the two direction assignments change only the two directions |
| Animation.AnimationController.MoveBoth | src/animation.py:311-312 | both characters take one step |
| Animation.AnimationController.UpdateBumpSequence | src/animation.py:308-343 | the bump tick as `Phases.UpdateBumpSequence` |
| Animation.AnimationController.BumpReaction | src/animation.py:315-343 | the bump test and back-up timer after both steps as `Phases.BumpReaction` |
| Animation.AnimationController.ToCollisionLoop | src/animation.py:345-355 | entry into the collision loop as `Phases.ToCollisionLoop` |
| Animation.AnimationController.BounceOffWall | src/animation.py:380-388 | a character past the left edge turns right, one past the right edge turns left, and nothing else changes |
| Animation.AnimationController.BounceOff | src/animation.py:369-378 | a character that bumped turns round and is nudged by the given offset |
| Animation.AnimationController.CollisionLoopMoves | src/animation.py:357-388 | moving, the walking sound, the bounce and the wall checks of a collision-loop tick, as `Phases.CollisionLoopMoves` |
| Animation.AnimationController.UpdateCollisionLoop | src/animation.py:357-392 | the collision-loop tick as `Phases.UpdateCollisionLoop` |
| Animation.AnimationController.ToFinalDialogue1 | src/animation.py:394-415 | entry into "Okay I have to go to work" as `Phases.ToFinalDialogue1` |
| Animation.AnimationController.UpdateFinalDialogue1 | src/animation.py:417-423 | that line's tick as `Phases.UpdateFinalDialogue1` |
| Animation.AnimationController.ToFinalDialogue2 | src/animation.py:425-437 | entry into "I don't care" as `Phases.ToFinalDialogue2` |
| Animation.AnimationController.UpdateFinalDialogue2 | src/animation.py:439-446 | that line's tick as `Phases.UpdateFinalDialogue2`, making no sound call |
| Animation.AnimationController.ToAlienAbduction | src/animation.py:448-458 | entry into the abduction as `Phases.ToAlienAbduction` |
| Animation.AnimationController.UpdateAlienAbduction | src/animation.py:460-483 | the abduction tick as `Phases.UpdateAlienAbduction` |
| Animation.AnimationController.ToWalkingOut | src/animation.py:485-497 | entry into the walk-out as `Phases.ToWalkingOut` |
| Animation.AnimationController.UpdateWalkingOut | src/animation.py:499-509 | the walk-out tick as `Phases.UpdateWalkingOut` |
| Animation.AnimationController.ToFinished | src/animation.py:511-521 | entry into the finished phase as `Phases.ToFinished` |
| Animation.AnimationController.UpdateFinished | src/animation.py:523-529 | the finished tick as `Phases.UpdateFinished` |
| Animation.AnimationController.ManageWalkingSound | src/animation.py:531-549 | the walking-sound rule as `Phases.ManageWalkingSound` |
| PhaseProps.StepMovesAtMostOnePhase | src/animation.py:27-41 | a tick stays in its phase or moves to the next one in declaration order, never back |
| PhaseProps.RunNeverGoesBack | src/animation.py:119-149 | over any number of ticks the phase never goes back |
| PhaseProps.FinishedStaysFinished | src/animation.py:523-529 | a finished tick stays finished and makes no sound; it records the clock only while no finish time is set, and clears the dialogue |
| PhaseProps.RunStaysFinished | src/animation.py:523-529 | once finished, any number of ticks stay finished, make no sound, and keep a finish time once set |
| PhaseProps.MeowDueFrom385 | src/animation.py:159-177 | the gate `elapsed / 700 >= 0.55` holds exactly when at least 385 ms have passed |
| PhaseProps.CatRunGate | src/animation.py:151-186 | a cat-run tick arms the timer when it reads 0 and moves to the walk-in exactly when at least 700 ms have passed since the start, never on the tick that arms it |
| PhaseProps.MeowFlag | src/animation.py:177-179 | the meow flag never falls; it rises exactly on a cat-run tick between 385 and 700 ms with a meow sound, and that tick plays the meow and nothing else |
| PhaseProps.CatFieldsKeptAfterCatRun | src/animation.py:119-149 | outside the cat run neither the meow flag nor the cat start time changes |
| PhaseProps.SayLineIsNotMeow | src/animation.py:259-260 | speaking a one-speaker line never plays the meow, when the meow is a sound of its own |
| PhaseProps.ManageIsNotMeow | src/animation.py:531-549 | the walking-sound rule never plays the meow |
| PhaseProps.NoMeowAfterCatRun | src/animation.py:119-149 | no tick outside the cat run plays the meow |
| PhaseProps.StepPlaysMeowOnlyWithFlag | src/animation.py:177-179 | a tick plays the meow once if it raises the flag and not at all otherwise |
| PhaseProps.MeowPlaysAtMostOnce | src/animation.py:177-179 | over any run the meow is played at most once, and not at all once the flag is set |
| PhaseProps.WalkingInMeets | src/animation.py:188-237 | the walk-in enters the collision exactly when, after both moves, character 1's centre is at least half the screen width minus 50 and character 2's at most plus 50; on entry both stand still, smile, talk and stop walking, the dialogue timer is now, "WATCH IT!" is shown for both, the collision sound plays and the line's clip(s) play |
| PhaseProps.WalkingInTakes160Ticks | src/animation.py:188-203 | from the exporter's start positions, walking toward each other at 3 px per tick, the walk-in lasts exactly 160 ticks whatever the tick times |
| PhaseProps.DialogueHolds | src/animation.py:239-290 | in a dialogue phase a tick changes nothing while elapsed is at most the hold and advances once it is strictly greater; the hold is the measured duration or the configured fallback, plus 400 ms for "I don't care" |
| PhaseProps.DialogueEntry | src/animation.py:205-282 | entering a dialogue phase sets the timer to now, shows that phase's line and speaker, makes exactly the speakers talk, and plays the line's clip(s) |
| PhaseProps.LineAfterLine | src/animation.py:239-437 | when a dialogue hands over to the next line (and likewise "Okay I have to go to work" to "I don't care"), the new line starts as `PhaseProps.DialogueEntry` says |
| PhaseProps.CollisionLoopEntersFinalDialogue1 | src/animation.py:394-415 | entering "Okay I have to go to work" from the collision loop shows the line for character 1, who talks while character 2 does not, and plays its clip |
| PhaseProps.InitialInv | src/animation.py:47-94 | a new controller satisfies the invariant (bump count in 0..5, both characters facing left or right, paused phases standing still) |
| PhaseProps.StepKeepsInv | src/animation.py:119-149 | every tick preserves the invariant |
| PhaseProps.EarlyPhasesKeepInv | src/animation.py:151-290 | the cat-run, collision and first two dialogue ticks preserve the invariant |
| PhaseProps.LatePhasesKeepInv | src/animation.py:417-529 | the last two dialogue, abduction, walk-out and finished ticks preserve the invariant |
| PhaseProps.WalkingInKeepsInv | src/animation.py:188-237 | the walk-in tick preserves the invariant |
| PhaseProps.BumpSequenceKeepsInv | src/animation.py:308-355 | the bump tick preserves the invariant, in particular the bump count never passes 5 |
| PhaseProps.CollisionLoopKeepsInv | src/animation.py:357-415 | the collision-loop tick preserves the invariant |
| PhaseProps.BouncedKeepsFacing | src/animation.py:369-388 | the bounces change only the two characters and keep each facing left or right |
| PhaseProps.RunKeepsInv | src/animation.py:119-149 | the invariant holds after any number of ticks |
| PhaseProps.BumpEntry | src/animation.py:292-306 | the bump sequence starts with count 0, approaching, timer now, character 1 facing right and character 2 left, both at speed 3 |
| PhaseProps.BumpTick | src/animation.py:308-343 | the count rises by one exactly on an approaching tick where the moved characters overlap, which also turns them outward and sets the timer; the phase is left only for the collision loop, from backing up, after more than 500 ms, with at least 5 bumps |
| PhaseProps.BumpSequenceEndsWithFive | src/animation.py:295-343 | the bump sequence is left with exactly 5 bumps |
| PhaseProps.WallBounceFacts | src/animation.py:380-388 | the wall check changes only the direction: right past the left edge, left past the right edge, unchanged in between |
| PhaseProps.CollisionLoopTick | src/animation.py:357-392 | on overlap character 1 is pushed 5 px left and character 2 5 px right, both turned round; after the tick a character left of the screen faces right, one past the right edge faces left, and one in between keeps the direction the bump left it |
| PhaseProps.CollisionLoopPlaces | src/animation.py:357-392 | whether or not the loop ends on a tick, the characters end where the bounces after both steps put them, facing the same way |
| PhaseProps.BounceGeometry | src/animation.py:369-388 | the bounces nudge touching characters 5 px apart and turn them round, then turn a character back from an edge it has passed |
| PhaseProps.CollisionLoopEnds | src/animation.py:357-415 | the loop is left exactly when more than 6000 ms have passed, standing still with character 1 saying "Okay I have to go to work" |
| PhaseProps.AbductionGate | src/animation.py:448-497 | the abduction leaves for the walk-out exactly when more than 4000 ms have passed and otherwise changes nothing; the walk-out starts with character 1 walking right and character 2 left at speed 3 |
| PhaseProps.WalkingOutGate | src/animation.py:499-521 | the walk-out finishes exactly when, after moving, character 1 is past the right edge and character 2 entirely past the left; on finishing the sound is stopped, nobody walks and no finish time is set |
| PhaseProps.WalkingSoundFollowsWalking | src/animation.py:531-549 | the rule touches only the current sound and makes at most one call: the walking sound loops while someone walks at a positive speed and is not playing once nobody does |
| Recorder.FrameWithoutPhaseChange | export_tiktok_final.py:225-291 | a frame only appends events, sets the last phase to the one it started in and counts one frame; when the phase was already seen it appends only collisions at now and a closing walking span |
| Recorder.CollisionEntryEvents | export_tiktok_final.py:233-243 | entering the collision closes an open span as an event from its start to now and clears it, then appends the collision and both "WATCH IT!" clips, all at now |
| Recorder.CollisionLoopSpans | export_tiktok_final.py:254-265 | entering the collision loop closes the open span and opens one at now; entering "Okay I have to go to work" closes it and appends that line |
| Recorder.ZeroStartIsNoSpan | export_tiktok_final.py:235-262 | a span opened at time 0 is never closed into an event |
| Recorder.LastFrameClosesSpan | export_tiktok_final.py:216-291 | the loop stops after a frame exactly when QUIT was pending or the animation has been finished for more than a second; in the latter case an open span is closed at the frame's time; otherwise only collisions at now follow the phase events |
| Recorder.CollisionTracking | export_tiktok_final.py:275-283 | once the phase has been seen, a frame records a collision exactly when it is in the bump sequence or collision loop and the rectangles overlap before the update |
| Recorder.DialogueFilesAreScriptFiles | export_tiktok_final.py:242-268 | every dialogue file the recorder names is a file of the dialogue table |
| Recorder.NoMeowInFrame | export_tiktok_final.py:225-291 | a frame keeps the last phase seen no later than the animation's and adds no meow |
| Recorder.NoMeowEver | export_tiktok_final.py:226-228 | because of `frame_count > 0` no meow event is ever recorded |
| Recorder.SpansInFrame | export_tiktok_final.py:229-291 | a frame adds no negative span and leaves any open span started by the frame's time |
| Recorder.SpansNeverNegative | export_tiktok_final.py:235-291 | with frame times that never go back, every walking span has a non-negative duration |
| Recorder.FromStart | export_tiktok_final.py:205-291 | a fresh recording records no meow and no negative span |
| Recorder.TidyPhase | export_tiktok_final.py:225-271 | the phase-change chain keeps the spans disjoint, in order and over by now, with an open span starting after all of them |
| Recorder.TidyFrame | export_tiktok_final.py:221-291 | a frame keeps the spans disjoint, in order and over by its time, and, if the loop goes on, keeps the open span after all of them |
| Recorder.SpansDisjoint | export_tiktok_final.py:229-291 | with frame times that never go back, the recorded walking spans are disjoint and in time order (zero-length spans may share a start; that each span is recorded exactly once is `Recorder.ExactlyOnce`) |
| Recorder.SpansDisjointFromStart | export_tiktok_final.py:205-291 | the same from a fresh recording |
| Recorder.NoSpanOverwritten | export_tiktok_final.py:225-273 | while the recorder and the animation keep step, a phase entered with a span held is one that closes it (collision, collision loop, first final line) or the finished phase, never one of the three that would overwrite it |
| Recorder.ClosingEntryLedger | export_tiktok_final.py:233-265 | entering the collision, the collision loop or the first final line records the held span, if non-zero, as the only span event, and holds nothing after, except the loop's new span at a non-zero now |
| Recorder.QuietEntryLedger | export_tiktok_final.py:225-273 | entering any other phase records no span; the walk-in, the bump sequence and the walk-out hold a new span at now, the rest keep the held one |
| Recorder.PhaseLedger | export_tiktok_final.py:225-273 | when no span is overwritten, the phase-change step turns the recorded span starts followed by the held span into the same list followed by the span it opens |
| Recorder.PhaseKeepsSpanPhase | export_tiktok_final.py:225-273 | after the phase-change step a held span belongs to a phase that opens spans or to the finished phase |
| Recorder.AroundShape | export_tiktok_final.py:216-291 | one pass appends the phase events, then a collision for an overlap, then, on the pass that finishes, the held span closed at now |
| Recorder.RecordLedger | export_tiktok_final.py:216-291 | the recorder's part of a pass keeps the span invariant and the ledger: recorded starts plus held span grow by the span the pass opens, and on the finishing pass nothing is left held |
| Recorder.FrameLedger | export_tiktok_final.py:216-291 | the same for a whole pass with the animation's update |
| Recorder.LeftOpen | export_tiktok_final.py:216-291 | the span left unrecorded when the loop ends is at most one, and is the span the recorder still holds |
| Recorder.ExactlyOnce | export_tiktok_final.py:216-291 | the starts of the recorded spans followed by the span left unrecorded are exactly the starts of the spans the loop opened, in order |
| Recorder.OpenedAlongTimes | export_tiktok_final.py:225-273 | spans are opened at non-zero frame times, none before the first frame; with strictly increasing frame times no two at the same time |
| Recorder.ExactlyOnceFromStart | export_tiktok_final.py:205-291 | from a fresh recording every span opened is recorded exactly once, except at most one left open when QUIT or the end of the frames stops the loop, none when it stops because the animation is done; the recorded starts are non-zero and, with strictly increasing frame times, distinct |
| Recorder.FramesCounted | export_tiktok_final.py:385-388 | the frame count is the number of frames the loop went through: all of them if it never stopped |
| Recorder.RecordPhaseChange | export_tiktok_final.py:225-271 | the phase-change chain appends the events and leaves the span `Recorder.OnPhase` gives |
| Recorder.RecordBeforeUpdate | export_tiktok_final.py:221-283 | the phase-change step and the pre-update overlap check, as `Recorder.ExportFrame` begins |
| Recorder.RecordFrame | export_tiktok_final.py:216-291 | one pass of the loop as `Recorder.ExportFrame` |
| Recorder.RecordFinish | export_tiktok_final.py:285-291 | the loop stops exactly when the animation has been finished for more than a second, closing the open span at now if it was opened at a non-zero time |
| Recorder.RecordExport | export_tiktok_final.py:205-291 | the whole loop leaves the animation, the events, the frame count and `running` as `Recorder.Export` gives |
| Mixdown.LoopsCover | export_tiktok_final.py:136-141 | `int(d / L) + 1` copies of the walking clip are longer than the span, and one fewer would not be |
| Mixdown.PlaceFacts | export_tiktok_final.py:113-141 | every clip starts at its event's time; a walking clip covers exactly [start, start + d), cut from enough copies; any other clip is its whole file once; a walking span is placed exactly when the clip opens, has positive length and the span is not negative |
| Mixdown.PlacementsAppend | export_tiktok_final.py:113-145 | the clips of two runs of events joined are the clips of each, in order |
| Mixdown.FailureIsSkipped | export_tiktok_final.py:144-145 | an event that fails contributes nothing and the others are still placed |
| Mixdown.PlacementsFromEvents | export_tiktok_final.py:113-145 | every clip comes from one of the events, and every event that can be placed is |
| Mixdown.NoClipsIffAllFail | export_tiktok_final.py:147-162 | no clip is placed exactly when every event fails |
| Mixdown.TotalDurationS | export_tiktok_final.py:397 | the duration times the frame rate is the frame count |
| Mixdown.CreateAudioTrack | export_tiktok_final.py:106-162 | a track exists exactly when some event can be placed; it holds the placed clips in event order with the given duration |
| TikTokExport.CatRunStep | export_tiktok_final.py:199-205 | the cat run leaves the characters at the exporter's start positions, so the tick that ends it starts the walk-in from them |
| TikTokExport.CatRunKeepsStart | export_tiktok_final.py:199-205 | however long the cat run lasts, it keeps the start positions |
| TikTokExport.ExportTikTokVideo | export_tiktok_final.py:183-401 | from the exporter's set-up: no meow event; with frame times that never go back, spans non-negative, disjoint and ordered, starting at non-zero times; with strictly increasing frame times, distinct starts; at most one frame counted per frame given; the track exists exactly when some event can be placed and lasts `frame_count / FPS` |

## Left out

- Drawing: `Character.draw`, `draw_dialogue`, the gradient surface, and the park, cat and
  UFO drawing of the exporter. Drawing is also what advances `walk_frame` and `talk_frame`,
  so in the model those change only through `set_talking(False)`.
- The decorative float state of the controller: `cat_x`, `cat_scale`, `ufo_y`,
  `beam_alpha` and the lift of character 2. None of it decides a transition.
- Text-to-speech, the OpenAI client and the network (`setup_openai_client`,
  `generate_tts_audio`).
- The synthesised walking sound (`_generate_walking_sound`). The walking sound is a
  parameter.
- Loading sound files. A load is a lookup in a map from path to sound; a missing path is a
  failed load.
- The moviepy mixing itself (`CompositeAudioClip`, `write_audiofile`), ffmpeg, and the cv2
  frame writes. Only the placement of clips is modelled.
- The clock and the event queue. Each frame's time, its pending QUIT and what the mixer
  reports are given as a finite sequence of frames. A run that the frames do not take to
  its end is cut off there.
- `Mixdown.Place`: clip lengths are whole milliseconds instead of float seconds, so
  `int(d / L)` is integer division. A walking span of negative length is treated as a failed
  event; moviepy's handling of a negative cut point is not modelled. Such spans never occur
  when frame times do not go back (`Recorder.SpansNeverNegative`).
- `Characters.Collides`: `colliderect` is assumed to be overlap of the open rectangles
  (touching edges do not collide). This is an assumption about pygame, not something the
  model proves.
- `PhaseProps.MeowPlaysAtMostOnce` assumes the meow is a sound of its own: not the walking
  or collision sound, and no dialogue clip. The claim is about that sound's play calls.
- The phase entries and ticks of `Animation.AnimationController` (`ToCollision`,
  `ToKiddingDialogue`, `ToHeyYaDialogue`, `ToBumpSequence`, `ToFinalDialogue1`,
  `ToFinalDialogue2`, `ToWalkingOut`, `CollisionLoopMoves`) group the per-character setters
  by character (`Halt`, `SetOff`, `SetTalkers`, `FaceBoth`, `BounceOff`), not in the source's
  interleaved order. The setters touch separate objects from each other and from the
  controller's own fields, so the resulting state is the same.
- The walking and talking animation counters of characters are not advanced, as said above
  under drawing.
- `export_tiktok.py` (frame capture and video encoding, no audio timeline) and `main.py`
  (the interactive pygame loop) are not part of this model.
