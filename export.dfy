/** The set-up of `export_tiktok_video` (export_tiktok_final.py): the two characters at their
    start positions walking toward each other, the audio manager and the controller, then the
    recording loop over the frames and the mixdown of the recorded events. Drawing, frame
    files and video encoding are not modelled. */
module TikTokExport {
  import opened Opt
  import opened Config
  import opened Characters
  import opened Audio
  import opened Phases
  import opened PhaseProps
  import opened Animation
  import opened Recorder
  import opened Mixdown

  /** The controller as the export builds it: character 1 just off the left edge facing
      right, character 2 just off the right edge facing left, both 200 px above the bottom. */
  function ExportStart(): Ctrl
  {
    Initial(NewBody(-50, ScreenHeight - 200), NewBody(ScreenWidth + 10, ScreenHeight - 200).(direction := -1), None)
  }

  /** The cat run leaves the characters where the export put them, so the tick that ends it
      starts the walk-in from those positions. */
  lemma CatRunStep(k: Setup, c: Ctrl, now: int, env: Env)
    requires WellFormed(k) && c.phase == CatRun
    requires c.char1 == ExportStart().char1 && c.char2 == ExportStart().char2
    ensures var r := Step(k, c, now, env).ctrl;
            (r.phase == CatRun && r.char1 == c.char1 && r.char2 == c.char2) || Approach(r, 0)
  {
  }

  /** However many ticks the cat run takes, it keeps the start positions. */
  lemma {:induction false} CatRunKeepsStart(k: Setup, c: Ctrl, ticks: seq<Tick>)
    requires WellFormed(k) && c.phase == CatRun
    requires c.char1 == ExportStart().char1 && c.char2 == ExportStart().char2
    ensures var r := Run(k, c, ticks).ctrl;
            r.phase == CatRun ==> r.char1 == c.char1 && r.char2 == c.char2
    decreases |ticks|
  {
    if ticks != [] {
      var o := Step(k, c, ticks[0].now, ticks[0].env);
      CatRunStep(k, c, ticks[0].now, ticks[0].env);
      if o.ctrl.phase == CatRun {
        CatRunKeepsStart(k, o.ctrl, ticks[1..]);
      } else {
        RunNeverGoesBack(k, o.ctrl, ticks[1..]);
      }
    }
  }

  /** `export_tiktok_video` without the drawing: the recorded events, the frame count and the
      audio track (`None` where no clip could be placed). `walkingSound`, `collisionSound`
      and `meowSound` are the sounds that loaded, `disk` the dialogue files that load, and
      `assets` the clip lengths of the files the mixdown can open. */
  method ExportTikTokVideo(walkingSound: Option<Sound>, collisionSound: Option<Sound>, meowSound: Option<Sound>,
                           disk: map<string, Sound>, frames: seq<Frame>, assets: map<string, nat>)
    returns (audioEvents: seq<AudioEvent>, frameCount: nat, track: Option<Track>)
    ensures NoMeow(audioEvents)
    ensures Monotone(frames) ==> SpansNonNegative(audioEvents) && SpansInOrder(audioEvents)
    ensures Monotone(frames) ==> forall i :: 0 <= i < |Starts(audioEvents)| ==> Starts(audioEvents)[i] != 0
    ensures Strict(frames) ==> Increasing(Starts(audioEvents))
    ensures frameCount <= |frames|
    ensures track.Some? <==> exists i :: 0 <= i < |audioEvents| && Place(audioEvents[i], assets).Some?
    ensures track.Some? ==> track.value == Track(Placements(audioEvents, assets), TotalDurationS(frameCount))
  {
    var audioManager := new AudioManager();
    var char1 := new Character(-50, ScreenHeight - 200, "Character 1", "alloy");
    var char2 := new Character(ScreenWidth + 10, ScreenHeight - 200, "Character 2", "echo");
    char2.direction := -1;
    var animation := new AnimationController(char1, char2, audioManager, walkingSound, collisionSound, meowSound, disk);
    assert animation.Snapshot() == ExportStart();
    ghost var k := animation.Setup();
    var running;
    audioEvents, frameCount, running := RecordExport(animation, frames);
    NoMeowEver(k, Session(ExportStart(), StartRec, true), frames);
    FramesCounted(k, Session(ExportStart(), StartRec, true), frames);
    if Monotone(frames) {
      FromStart(k, ExportStart(), frames);
      SpansDisjointFromStart(k, ExportStart(), frames);
    }
    ExactlyOnceFromStart(k, ExportStart(), frames);
    track := CreateAudioTrack(audioEvents, TotalDurationS(frameCount), assets);
  }
}
