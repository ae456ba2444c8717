/** `AnimationController` of src/animation.py as an object: it holds the two characters and
    the audio manager, updates its own fields and theirs in place, and each of its methods is
    proved to do exactly what the matching function of `Phases` computes. The sound calls a
    method makes are returned, in order. */
module Animation {
  import opened Opt
  import opened Config
  import opened Characters
  import opened Audio
  import opened Phases

  class AnimationController {
    const char1: Character
    const char2: Character
    const audio: AudioManager
    const walkingSound: Option<Sound>
    const collisionSound: Option<Sound>
    const meowSound: Option<Sound>
    const dialogueAudio: map<string, DialogueClip>
    const dialogueDurations: map<string, nat>

    var phase: Phase
    var dialogueTimer: int
    var collisionStartTime: int
    var currentDialogue: string
    var dialogueSpeaker: string
    var finishedTime: Option<int>
    var bumpCount: int
    var bumpState: BumpState
    var bumpTimer: int
    var subtitleStartTime: int
    var abductionStartTime: int
    var catStartTime: int
    var meowPlayed: bool

    /** The sounds and dialogue the controller was built with. */
    function Setup(): Setup
    {
      Phases.Setup(walkingSound, collisionSound, meowSound, dialogueAudio, dialogueDurations)
    }

    /** The two characters are distinct objects and only "WATCH IT!" is a pair of clips. */
    predicate Valid()
    {
      char1 != char2 && WellFormed(Setup())
    }

    /** The controller's state, with its characters' and the current sound, as a value. */
    function Snapshot(): Ctrl
      reads this, char1, char2, audio
    {
      Ctrl(phase, dialogueTimer, collisionStartTime, currentDialogue, dialogueSpeaker, finishedTime,
           bumpCount, bumpState, bumpTimer, subtitleStartTime, abductionStartTime, catStartTime,
           meowPlayed, char1.State(), char2.State(), audio.currentSound)
    }

    /** `__init__`, with `_preload_dialogues`: the script is preloaded from `disk`. */
    constructor (char1: Character, char2: Character, audio: AudioManager,
                 walkingSound: Option<Sound>, collisionSound: Option<Sound>, meowSound: Option<Sound>,
                 disk: map<string, Sound>)
      requires char1 != char2
      ensures Valid()
      ensures this.char1 == char1 && this.char2 == char2 && this.audio == audio
      ensures Setup().walkingSound == walkingSound && Setup().collisionSound == collisionSound
      ensures Setup().meowSound == meowSound
      ensures Snapshot() == Initial(char1.State(), char2.State(), audio.currentSound)
      ensures dialogueAudio.Keys == dialogueDurations.Keys
      ensures forall text :: text in dialogueAudio <==>
                text in Texts(Script(char1.voice, char2.voice)) && LoadedFor(text, disk).Some?
      ensures forall text :: text in dialogueAudio ==>
                LoadedFor(text, disk) == Some(Loaded(dialogueAudio[text], dialogueDurations[text]))
    {
      this.char1 := char1;
      this.char2 := char2;
      this.audio := audio;
      this.walkingSound := walkingSound;
      this.collisionSound := collisionSound;
      this.meowSound := meowSound;
      phase := CatRun;
      dialogueTimer := 0;
      collisionStartTime := 0;
      currentDialogue := "";
      dialogueSpeaker := "";
      finishedTime := None;
      bumpCount := 0;
      bumpState := Approaching;
      bumpTimer := 0;
      subtitleStartTime := 0;
      abductionStartTime := 0;
      catStartTime := 0;
      meowPlayed := false;
      var clips, durations := audio.PreloadDialogue(Script(char1.voice, char2.voice), disk);
      dialogueAudio := clips;
      dialogueDurations := durations;
      forall text | text in clips && clips[text].Dual?
        ensures text == WatchIt
      {
        OnlyWatchItIsDual(text, disk);
      }
    }

    /** `update(current_time)`: one tick. `env` carries what the tick reads from pygame. */
    method Update(currentTime: int, env: Env) returns (calls: seq<SoundCall>)
      requires Valid()
      modifies this, char1, char2, audio
      ensures Out(Snapshot(), calls) == Step(Setup(), old(Snapshot()), currentTime, env)
    {
      match phase {
        case CatRun => calls := UpdateCatRun(currentTime);
        case WalkingIn => calls := UpdateWalkingIn(currentTime, env);
        case Collision => calls := UpdateCollision(currentTime);
        case KiddingDialogue => calls := UpdateKiddingDialogue(currentTime);
        case HeyYaDialogue => UpdateHeyYaDialogue(currentTime); calls := [];
        case BumpSequence => calls := UpdateBumpSequence(currentTime, env);
        case CollisionLoop => calls := UpdateCollisionLoop(currentTime, env);
        case FinalDialogue1 => calls := UpdateFinalDialogue1(currentTime);
        case FinalDialogue2 => UpdateFinalDialogue2(currentTime); calls := [];
        case AlienAbduction => UpdateAlienAbduction(currentTime); calls := [];
        case WalkingOut => calls := UpdateWalkingOut(env);
        case Finished => UpdateFinished(env); calls := [];
      }
    }

    method UpdateCatRun(currentTime: int) returns (calls: seq<SoundCall>)
      modifies this
      ensures Out(Snapshot(), calls) == Phases.UpdateCatRun(Setup(), old(Snapshot()), currentTime)
    {
      calls := [];
      if catStartTime == 0 {
        catStartTime := currentTime;
      }
      var elapsed := currentTime - catStartTime;
      if elapsed < CatRunMs {
        if MeowDue(elapsed) && !meowPlayed && meowSound.Some? {
          calls := [Play(meowSound.value)];
          meowPlayed := true;
        }
      } else {
        phase := WalkingIn;
      }
    }

    method UpdateWalkingIn(currentTime: int, env: Env) returns (calls: seq<SoundCall>)
      requires Valid()
      modifies this, char1, char2, audio
      ensures Out(Snapshot(), calls) == Phases.UpdateWalkingIn(Setup(), old(Snapshot()), currentTime, env)
    {
      char1.SetWalking(true);
      char2.SetWalking(true);
      char1.Move();
      char2.Move();
      calls := ManageWalkingSound(env);
      if char1.GetCenterX() >= ScreenWidth / 2 - 50 && char2.GetCenterX() <= ScreenWidth / 2 + 50 {
        var more := ToCollision(currentTime);
        calls := calls + more;
      }
    }

    method ToCollision(currentTime: int) returns (calls: seq<SoundCall>)
      requires Valid()
      modifies this, char1, char2, audio
      ensures Out(Snapshot(), calls) == Phases.ToCollision(Setup(), old(Snapshot()), currentTime)
    {
      ghost var before := Snapshot();
      Halt(char1, true);
      Halt(char2, true);
      phase := Collision;
      calls := audio.StopCurrentSound();
      dialogueTimer := currentTime;
      subtitleStartTime := currentTime;
      currentDialogue := WatchIt;
      dialogueSpeaker := "both";
      calls := calls + PlayDirect(collisionSound);
      var more := SayWatchIt();
      calls := calls + more;
      assert char1.State() == Halted(before.char1, true) && char2.State() == Halted(before.char2, true);
    }

    /** `set_speed(0)`, `set_walking(False)`, `set_smiling(True)` and `set_talking(talking)` on
        one character. */
    method Halt(c: Character, talking: bool)
      modifies c
      ensures c.State() == Halted(old(c.State()), talking)
    {
      c.SetSpeed(0);
      c.SetWalking(false);
      c.SetSmiling(true);
      c.SetTalking(talking);
    }

    /** The dialogue step of `_transition_to_collision`. */
    method SayWatchIt() returns (calls: seq<SoundCall>)
      modifies audio
      ensures Slot(audio.currentSound, calls) == Phases.SayWatchIt(Setup(), old(audio.currentSound))
    {
      calls := [];
      if WatchIt in dialogueAudio {
        match dialogueAudio[WatchIt] {
          case Dual(a, b) =>
            calls := [Play(a), Play(b)];
          case Single(s) =>
            calls := audio.PlaySound(Some(s));
        }
      }
    }

    /** `set_talking` on both characters, for a line one of them speaks. */
    method SetTalkers(talking1: bool, talking2: bool)
      requires Valid()
      modifies char1, char2
      ensures char1.State() == old(char1.State()).WithTalking(talking1)
      ensures char2.State() == old(char2.State()).WithTalking(talking2)
    {
      char1.SetTalking(talking1);
      char2.SetTalking(talking2);
    }

    /** `play_sound(self.dialogue_audio[text])` for a one-speaker line. */
    method SayLine(text: string) returns (calls: seq<SoundCall>)
      requires Valid() && text != WatchIt
      modifies audio
      ensures Slot(audio.currentSound, calls) == Phases.SayLine(Setup(), old(audio.currentSound), text)
    {
      calls := [];
      if text in dialogueAudio {
        match dialogueAudio[text] {
          case Single(s) => calls := audio.PlaySound(Some(s));
        }
      }
    }

    method UpdateCollision(currentTime: int) returns (calls: seq<SoundCall>)
      requires Valid()
      modifies this, char1, char2, audio
      ensures Out(Snapshot(), calls) == Phases.UpdateCollision(Setup(), old(Snapshot()), currentTime)
    {
      calls := [];
      var duration := DurationOf(Setup(), WatchIt, CollisionDialogueMs);
      if currentTime - dialogueTimer > duration {
        char1.SetTalking(false);
        char2.SetTalking(false);
        calls := ToKiddingDialogue(currentTime);
      }
    }

    method ToKiddingDialogue(currentTime: int) returns (calls: seq<SoundCall>)
      requires Valid()
      modifies this, char1, char2, audio
      ensures Out(Snapshot(), calls) == Phases.ToKiddingDialogue(Setup(), old(Snapshot()), currentTime)
    {
      ghost var before := Snapshot();
      SetTalkers(true, false);
      calls := SayLine(KiddingLine);
      phase := KiddingDialogue;
      dialogueTimer := currentTime;
      subtitleStartTime := currentTime;
      currentDialogue := KiddingLine;
      dialogueSpeaker := "char1";
      assert char1.State() == before.char1.WithTalking(true);
      assert char2.State() == before.char2.WithTalking(false);
    }

    method UpdateKiddingDialogue(currentTime: int) returns (calls: seq<SoundCall>)
      requires Valid()
      modifies this, char1, char2, audio
      ensures Out(Snapshot(), calls) == Phases.UpdateKiddingDialogue(Setup(), old(Snapshot()), currentTime)
    {
      calls := [];
      var duration := DurationOf(Setup(), KiddingLine, KiddingDialogueMs);
      if currentTime - dialogueTimer > duration {
        char1.SetTalking(false);
        calls := ToHeyYaDialogue(currentTime);
      }
    }

    method ToHeyYaDialogue(currentTime: int) returns (calls: seq<SoundCall>)
      requires Valid()
      modifies this, char1, char2, audio
      ensures Out(Snapshot(), calls) == Phases.ToHeyYaDialogue(Setup(), old(Snapshot()), currentTime)
    {
      ghost var before := Snapshot();
      SetTalkers(false, true);
      calls := SayLine(HeyYaLine);
      phase := HeyYaDialogue;
      dialogueTimer := currentTime;
      subtitleStartTime := currentTime;
      currentDialogue := HeyYaLine;
      dialogueSpeaker := "char2";
      assert char1.State() == before.char1.WithTalking(false);
      assert char2.State() == before.char2.WithTalking(true);
    }

    method UpdateHeyYaDialogue(currentTime: int)
      requires Valid()
      modifies this, char1, char2
      ensures Out(Snapshot(), []) == Phases.UpdateHeyYaDialogue(Setup(), old(Snapshot()), currentTime)
    {
      var duration := DurationOf(Setup(), HeyYaLine, HeyYaDialogueMs);
      if currentTime - dialogueTimer > duration {
        char2.SetTalking(false);
        ToBumpSequence(currentTime);
      }
    }

    method ToBumpSequence(currentTime: int)
      requires char1 != char2
      modifies this, char1, char2
      ensures Snapshot() == Phases.ToBumpSequence(old(Snapshot()), currentTime)
    {
      ghost var before := Snapshot();
      SetOff(char1, 1);
      SetOff(char2, -1);
      phase := BumpSequence;
      bumpCount := 0;
      bumpState := Approaching;
      bumpTimer := currentTime;
      currentDialogue := "";
      assert char1.State() == Phases.SetOff(before.char1, 1) && char2.State() == Phases.SetOff(before.char2, -1);
    }

    /** What `_transition_to_bump_sequence` and `_transition_to_walking_out` do to one
        character: `set_smiling(True)`, `set_speed(3)`, `set_walking(True)`, and face
        `direction`. */
    method SetOff(c: Character, direction: int)
      modifies c
      ensures c.State() == Phases.SetOff(old(c.State()), direction)
    {
      c.SetSmiling(true);
      c.SetSpeed(3);
      c.SetWalking(true);
      c.direction := direction;
    }

    /** `character.direction = direction`. */
    method Face(c: Character, direction: int)
      modifies c
      ensures c.State() == old(c.State()).(direction := direction)
    {
      c.direction := direction;
    }

    /** `char1.direction = direction1` and `char2.direction = direction2`. */
    method FaceBoth(direction1: int, direction2: int)
      requires Valid()
      modifies char1, char2
      ensures char1.State() == old(char1.State()).(direction := direction1)
      ensures char2.State() == old(char2.State()).(direction := direction2)
    {
      Face(char1, direction1);
      Face(char2, direction2);
    }

    /** Both characters take one step. */
    method MoveBoth()
      requires Valid()
      modifies char1, char2
      ensures char1.State() == old(char1.State()).Moved()
      ensures char2.State() == old(char2.State()).Moved()
    {
      char1.Move();
      char2.Move();
    }

    method UpdateBumpSequence(currentTime: int, env: Env) returns (calls: seq<SoundCall>)
      requires Valid()
      modifies this, char1, char2, audio
      ensures Out(Snapshot(), calls) == Phases.UpdateBumpSequence(Setup(), old(Snapshot()), currentTime, env)
    {
      ghost var before := Snapshot();
      MoveBoth();
      assert Snapshot() == BothMoved(before);
      calls := ManageWalkingSound(env);
      var reaction := BumpReaction(currentTime);
      calls := calls + reaction;
    }

    /** The bump test and back-up timer of `_update_bump_sequence`, after both steps. */
    method BumpReaction(currentTime: int) returns (calls: seq<SoundCall>)
      requires Valid()
      modifies this, char1, char2
      ensures Out(Snapshot(), calls) == Phases.BumpReaction(Setup(), old(Snapshot()), currentTime)
    {
      calls := [];
      match bumpState {
        case Approaching =>
          if Collides(char1.GetRect(), char2.GetRect()) {
            bumpCount := bumpCount + 1;
            bumpState := BackingUp;
            bumpTimer := currentTime;
            FaceBoth(-1, 1);
            calls := PlayDirect(collisionSound);
          }
        case BackingUp =>
          if currentTime - bumpTimer > BackUpMs {
            if bumpCount >= BumpsWanted {
              ToCollisionLoop(currentTime);
            } else {
              bumpState := Approaching;
              FaceBoth(1, -1);
            }
          }
      }
    }

    method ToCollisionLoop(currentTime: int)
      requires Valid()
      modifies this, char1, char2
      ensures Snapshot() == Phases.ToCollisionLoop(old(Snapshot()), currentTime)
    {
      phase := CollisionLoop;
      collisionStartTime := currentTime;
      char1.SetSmiling(true);
      char2.SetSmiling(true);
      char1.SetSpeed(2);
      char2.SetSpeed(2);
      char1.SetWalking(true);
      char2.SetWalking(true);
      currentDialogue := "";
    }

    /** The screen-edge test for one character. */
    method BounceOffWall(c: Character)
      modifies c
      ensures c.State() == WallBounce(old(c.State()))
    {
      if c.x < 0 {
        c.direction := 1;
      } else if c.x > ScreenWidth - c.width {
        c.direction := -1;
      }
    }

    method UpdateCollisionLoop(currentTime: int, env: Env) returns (calls: seq<SoundCall>)
      requires Valid()
      modifies this, char1, char2, audio
      ensures Out(Snapshot(), calls) == Phases.UpdateCollisionLoop(Setup(), old(Snapshot()), currentTime, env)
    {
      var collisionLoopTime := currentTime - collisionStartTime;
      calls := CollisionLoopMoves(env);
      if collisionLoopTime > CollisionLoopMs {
        var more := ToFinalDialogue1(currentTime);
        calls := calls + more;
      }
    }

    method CollisionLoopMoves(env: Env) returns (calls: seq<SoundCall>)
      requires Valid()
      modifies char1, char2, audio
      ensures Out(Snapshot(), calls) == Phases.CollisionLoopMoves(Setup(), old(Snapshot()), env)
    {
      ghost var before := Snapshot();
      MoveBoth();
      assert Snapshot() == BothMoved(before);
      calls := ManageWalkingSound(env);
      if Collides(char1.GetRect(), char2.GetRect()) {
        BounceOff(char1, -Separation);
        BounceOff(char2, Separation);
        calls := calls + PlayDirect(collisionSound);
      }
      BounceOffWall(char1);
      BounceOffWall(char2);
    }

    /** What a bounce between the characters does to one of them: it turns round and is
        pushed `nudge` px along x. */
    method BounceOff(c: Character, nudge: int)
      modifies c
      ensures c.State() == old(c.State()).Reversed().(x := old(c.x) + nudge)
    {
      c.ReverseDirection();
      c.x := c.x + nudge;
    }

    method ToFinalDialogue1(currentTime: int) returns (calls: seq<SoundCall>)
      requires Valid()
      modifies this, char1, char2, audio
      ensures Out(Snapshot(), calls) == Phases.ToFinalDialogue1(Setup(), old(Snapshot()), currentTime)
    {
      ghost var before := Snapshot();
      Halt(char1, true);
      Halt(char2, false);
      phase := FinalDialogue1;
      calls := audio.StopCurrentSound();
      dialogueTimer := currentTime;
      subtitleStartTime := currentTime;
      currentDialogue := WorkLine;
      dialogueSpeaker := "char1";
      var more := SayLine(WorkLine);
      calls := calls + more;
      assert char1.State() == Halted(before.char1, true) && char2.State() == Halted(before.char2, false);
    }

    method UpdateFinalDialogue1(currentTime: int) returns (calls: seq<SoundCall>)
      requires Valid()
      modifies this, char1, char2, audio
      ensures Out(Snapshot(), calls) == Phases.UpdateFinalDialogue1(Setup(), old(Snapshot()), currentTime)
    {
      calls := [];
      var duration := DurationOf(Setup(), WorkLine, FinalDialogue1Ms);
      if currentTime - dialogueTimer > duration {
        char1.SetTalking(false);
        calls := ToFinalDialogue2(currentTime);
      }
    }

    method ToFinalDialogue2(currentTime: int) returns (calls: seq<SoundCall>)
      requires Valid()
      modifies this, char1, char2, audio
      ensures Out(Snapshot(), calls) == Phases.ToFinalDialogue2(Setup(), old(Snapshot()), currentTime)
    {
      ghost var before := Snapshot();
      SetTalkers(false, true);
      calls := SayLine(DontCareLine);
      phase := FinalDialogue2;
      dialogueTimer := currentTime;
      subtitleStartTime := currentTime;
      currentDialogue := DontCareLine;
      dialogueSpeaker := "char2";
      assert char1.State() == before.char1.WithTalking(false);
      assert char2.State() == before.char2.WithTalking(true);
    }

    method UpdateFinalDialogue2(currentTime: int)
      requires Valid()
      modifies this, char1, char2
      ensures Out(Snapshot(), []) == Phases.UpdateFinalDialogue2(Setup(), old(Snapshot()), currentTime)
    {
      var duration := DurationOf(Setup(), DontCareLine, FinalDialogue2Ms);
      if currentTime - dialogueTimer > duration + GraceMs {
        char2.SetTalking(false);
        ToAlienAbduction(currentTime);
      }
    }

    method ToAlienAbduction(currentTime: int)
      requires Valid()
      modifies this, char1, char2
      ensures Snapshot() == Phases.ToAlienAbduction(old(Snapshot()), currentTime)
    {
      phase := AlienAbduction;
      abductionStartTime := currentTime;
      char1.SetSpeed(0);
      char2.SetSpeed(0);
      char1.SetWalking(false);
      char2.SetWalking(false);
      currentDialogue := "";
    }

    method UpdateAlienAbduction(currentTime: int)
      requires Valid()
      modifies this, char1, char2
      ensures Snapshot() == Phases.UpdateAlienAbduction(old(Snapshot()), currentTime)
    {
      var elapsed := currentTime - abductionStartTime;
      if elapsed > AbductionMs {
        ToWalkingOut();
      }
    }

    method ToWalkingOut()
      requires Valid()
      modifies this, char1, char2
      ensures Snapshot() == Phases.ToWalkingOut(old(Snapshot()))
    {
      ghost var before := Snapshot();
      SetOff(char1, 1);
      SetOff(char2, -1);
      phase := WalkingOut;
      currentDialogue := "";
      assert char1.State() == Phases.SetOff(before.char1, 1) && char2.State() == Phases.SetOff(before.char2, -1);
    }

    method UpdateWalkingOut(env: Env) returns (calls: seq<SoundCall>)
      requires Valid()
      modifies this, char1, char2, audio
      ensures Out(Snapshot(), calls) == Phases.UpdateWalkingOut(Setup(), old(Snapshot()), env)
    {
      MoveBoth();
      calls := ManageWalkingSound(env);
      if char1.x > ScreenWidth && char2.x < -char2.width {
        var more := ToFinished();
        calls := calls + more;
      }
    }

    method ToFinished() returns (calls: seq<SoundCall>)
      requires Valid()
      modifies this, char1, char2, audio
      ensures Out(Snapshot(), calls) == Phases.ToFinished(old(Snapshot()))
    {
      phase := Finished;
      char1.SetWalking(false);
      char2.SetWalking(false);
      char1.SetSmiling(true);
      char2.SetSmiling(true);
      calls := audio.StopCurrentSound();
      finishedTime := None;
    }

    /** `_update_finished`; `env.ticks` is what `pygame.time.get_ticks()` returns. */
    method UpdateFinished(env: Env)
      modifies this
      ensures Snapshot() == Phases.UpdateFinished(old(Snapshot()), env)
    {
      if finishedTime.None? {
        finishedTime := Some(env.ticks);
      }
      currentDialogue := "";
      dialogueSpeaker := "";
    }

    /** `_manage_walking_sound`; `env.walkingChannels` is what the walking sound's
        `get_num_channels()` reports. */
    method ManageWalkingSound(env: Env) returns (calls: seq<SoundCall>)
      requires Valid()
      modifies audio
      ensures Out(Snapshot(), calls) == Phases.ManageWalkingSound(Setup(), old(Snapshot()), env)
    {
      calls := [];
      var anyoneWalking := (char1.isWalking && char1.speed > 0) || (char2.isWalking && char2.speed > 0);
      if anyoneWalking {
        if walkingSound.Some? {
          var playing := audio.IsSoundPlaying(walkingSound, env.walkingChannels);
          if !playing {
            calls := audio.PlayLoopingSound(walkingSound);
          }
        }
      } else {
        if walkingSound.Some? {
          var playing := audio.IsSoundPlaying(walkingSound, env.walkingChannels);
          if playing {
            calls := audio.StopCurrentSound();
          }
        }
      }
    }
  }
}
