/** The phase state machine of `AnimationController` (src/animation.py) as a function from
    the controller's state and one tick's inputs to the next state and the sound calls made
    during the tick. Each `Update...` function follows one `_update_*` method and each
    `To...` function one `_transition_to_*` method. The decorative float state (cat
    position and scale, UFO height, beam alpha, the lift of character 2) never decides a
    transition and is not modelled. */
module Phases {
  import opened Opt
  import opened Config
  import opened Characters
  import opened Audio

  /** `AnimationPhase`, in declaration order. */
  datatype Phase =
    | CatRun | WalkingIn | Collision | KiddingDialogue | HeyYaDialogue | BumpSequence
    | CollisionLoop | FinalDialogue1 | FinalDialogue2 | AlienAbduction | WalkingOut | Finished
  {
    /** Position in the declaration order. */
    function Ordinal(): nat
    {
      match this
      case CatRun => 0
      case WalkingIn => 1
      case Collision => 2
      case KiddingDialogue => 3
      case HeyYaDialogue => 4
      case BumpSequence => 5
      case CollisionLoop => 6
      case FinalDialogue1 => 7
      case FinalDialogue2 => 8
      case AlienAbduction => 9
      case WalkingOut => 10
      case Finished => 11
    }

    /** The phase a transition out of this one enters; `Finished` has no successor. */
    function Next(): Phase
    {
      match this
      case CatRun => WalkingIn
      case WalkingIn => Collision
      case Collision => KiddingDialogue
      case KiddingDialogue => HeyYaDialogue
      case HeyYaDialogue => BumpSequence
      case BumpSequence => CollisionLoop
      case CollisionLoop => FinalDialogue1
      case FinalDialogue1 => FinalDialogue2
      case FinalDialogue2 => AlienAbduction
      case AlienAbduction => WalkingOut
      case WalkingOut => Finished
      case Finished => Finished
    }
  }

  /** The sub-state of the bump sequence (`bump_state`, a string in the source). */
  datatype BumpState = Approaching | BackingUp

  const KiddingLine: string := "Just kidding, running into people is fun!"
  const HeyYaLine: string := "Hey ya!"
  const WorkLine: string := "Okay I have to go to work"
  const DontCareLine: string := "I don't care"

  /** The dialogue script `_preload_dialogues` hands to the audio manager. */
  function Script(voice1: string, voice2: string): seq<DialogueLine>
  {
    [ DialogueLine(WatchIt, "both", "nova"),
      DialogueLine(KiddingLine, "char1", voice1),
      DialogueLine(HeyYaLine, "char2", voice2),
      DialogueLine(WorkLine, "char1", voice1),
      DialogueLine(DontCareLine, "char2", voice2) ]
  }

  /** How long the cat takes to cross the screen, in ms. */
  const CatRunMs: int := 700
  /** How long the characters back up after a bump, in ms. */
  const BackUpMs: int := 500
  /** How many bumps the bump sequence plays. */
  const BumpsWanted: int := 5
  /** The pause after "I don't care" before the abduction, in ms. */
  const GraceMs: int := 400
  /** How long the abduction lasts, in ms. */
  const AbductionMs: int := 4000
  /** How far the characters are pushed apart after a bounce, in px. */
  const Separation: int := 5

  /** What the controller is built with and never changes: its sound effects and the
      preloaded dialogue clips and durations. */
  datatype Setup = Setup(
    walkingSound: Option<Sound>,
    collisionSound: Option<Sound>,
    meowSound: Option<Sound>,
    dialogueAudio: map<string, DialogueClip>,
    dialogueDurations: map<string, nat>)

  /** Preloading stores a pair of clips only for "WATCH IT!" (Audio.OnlyWatchItIsDual); the
      other lines are played through `play_sound`, which takes one clip. */
  predicate WellFormed(k: Setup)
  {
    forall text :: text in k.dialogueAudio && k.dialogueAudio[text].Dual? ==> text == WatchIt
  }

  /** What a tick reads from outside besides the time: `pygame.time.get_ticks()` (read by
      the finished phase) and `walking_sound.get_num_channels()`. */
  datatype Env = Env(ticks: int, walkingChannels: nat)

  /** The controller's fields, its two characters, and the audio manager's current sound. */
  datatype Ctrl = Ctrl(
    phase: Phase,
    dialogueTimer: int,
    collisionStartTime: int,
    currentDialogue: string,
    dialogueSpeaker: string,
    finishedTime: Option<int>,
    bumpCount: int,
    bumpState: BumpState,
    bumpTimer: int,
    subtitleStartTime: int,
    abductionStartTime: int,
    catStartTime: int,
    meowPlayed: bool,
    char1: Body,
    char2: Body,
    current: Option<Sound>)

  /** The state after (part of) a tick and the sound calls made, in order. */
  datatype Out = Out(ctrl: Ctrl, calls: seq<SoundCall>)

  /** The state `AnimationController.__init__` sets up. */
  function Initial(char1: Body, char2: Body, current: Option<Sound>): Ctrl
  {
    Ctrl(CatRun, 0, 0, "", "", None, 0, Approaching, 0, 0, 0, 0, false, char1, char2, current)
  }

  /** `self.dialogue_durations.get(text, fallback)`. */
  function DurationOf(k: Setup, text: string, fallback: nat): int
  {
    if text in k.dialogueDurations then k.dialogueDurations[text] else fallback
  }

  /** `if sound: sound.play()`, bypassing the audio manager. */
  function PlayDirect(sound: Option<Sound>): seq<SoundCall>
  {
    if sound.Some? then [Play(sound.value)] else []
  }

  /** `if text in self.dialogue_audio: self.audio_manager.play_sound(...)` for a one-speaker line. */
  function SayLine(k: Setup, current: Option<Sound>, text: string): Slot
    requires WellFormed(k) && text != WatchIt
  {
    if text in k.dialogueAudio then
      match k.dialogueAudio[text]
      case Single(s) => AfterPlay(current, Some(s))
    else Slot(current, [])
  }

  /** Someone walks with a positive speed. */
  predicate AnyoneWalking(c: Ctrl)
  {
    (c.char1.walking && c.char1.speed > 0) || (c.char2.walking && c.char2.speed > 0)
  }

  /** `_manage_walking_sound`: loop the walking sound while someone walks, stop it otherwise. */
  function ManageWalkingSound(k: Setup, c: Ctrl, env: Env): Out
  {
    var playing := IsPlaying(c.current, k.walkingSound, env.walkingChannels);
    if AnyoneWalking(c) then
      if k.walkingSound.Some? && !playing then
        var s := AfterPlayLooping(c.current, k.walkingSound);
        Out(c.(current := s.current), s.calls)
      else Out(c, [])
    else if k.walkingSound.Some? && playing then
      var s := AfterStop(c.current);
      Out(c.(current := s.current), s.calls)
    else Out(c, [])
  }

  /** Both characters take one step. */
  function BothMoved(c: Ctrl): Ctrl
  {
    c.(char1 := c.char1.Moved(), char2 := c.char2.Moved())
  }

  /** The rectangles of the two characters collide. */
  predicate Touching(c: Ctrl)
  {
    Collides(c.char1.Bounds(), c.char2.Bounds())
  }

  // ----- CAT_RUN -----

  /** `progress >= 0.55` with `progress = time_elapsed / 700`. */
  predicate MeowDue(elapsed: int)
  {
    (elapsed as real) / 700.0 >= 0.55
  }

  /** `_update_cat_run`. A start time of 0 means "not started yet", so the timer is armed
      again on every tick at time 0. */
  function UpdateCatRun(k: Setup, c: Ctrl, now: int): Out
  {
    var start := if c.catStartTime == 0 then now else c.catStartTime;
    var elapsed := now - start;
    var c0 := c.(catStartTime := start);
    if elapsed < CatRunMs then
      if MeowDue(elapsed) && !c.meowPlayed && k.meowSound.Some? then
        Out(c0.(meowPlayed := true), [Play(k.meowSound.value)])
      else Out(c0, [])
    else Out(c0.(phase := WalkingIn), [])
  }

  // ----- WALKING_IN -----

  /** The meeting test of `_update_walking_in`. */
  predicate Met(c: Ctrl)
  {
    c.char1.CenterX() >= ScreenWidth / 2 - 50 && c.char2.CenterX() <= ScreenWidth / 2 + 50
  }

  /** `_update_walking_in`. */
  function UpdateWalkingIn(k: Setup, c: Ctrl, now: int, env: Env): Out
  {
    var walked := BothMoved(c.(char1 := c.char1.(walking := true), char2 := c.char2.(walking := true)));
    var m := ManageWalkingSound(k, walked, env);
    if Met(m.ctrl) then
      var t := ToCollision(k, m.ctrl, now);
      Out(t.ctrl, m.calls + t.calls)
    else m
  }

  /** A character stopping to speak or listen: speed 0, not walking, smiling, and talking
      or not. */
  function Halted(b: Body, talking: bool): Body
  {
    b.(speed := 0, walking := false, smiling := true).WithTalking(talking)
  }

  /** `_transition_to_collision`. */
  function ToCollision(k: Setup, c: Ctrl, now: int): Out
  {
    var c1 := Halted(c.char1, true);
    var c2 := Halted(c.char2, true);
    var stop := AfterStop(c.current);
    var voice := SayWatchIt(k, stop.current);
    Out(c.(phase := Collision, char1 := c1, char2 := c2, current := voice.current,
           dialogueTimer := now, subtitleStartTime := now,
           currentDialogue := WatchIt, dialogueSpeaker := "both"),
        stop.calls + PlayDirect(k.collisionSound) + voice.calls)
  }

  /** Saying "WATCH IT!": a pair of clips is played directly, both at once, without
      becoming the current sound; a single clip goes through `play_sound`. */
  function SayWatchIt(k: Setup, current: Option<Sound>): Slot
  {
    if WatchIt in k.dialogueAudio then
      match k.dialogueAudio[WatchIt]
      case Dual(a, b) => Slot(current, [Play(a), Play(b)])
      case Single(s) => AfterPlay(current, Some(s))
    else Slot(current, [])
  }

  // ----- COLLISION, KIDDING_DIALOGUE, HEY_YA_DIALOGUE -----

  /** `_update_collision`. */
  function UpdateCollision(k: Setup, c: Ctrl, now: int): Out
    requires WellFormed(k)
  {
    if now - c.dialogueTimer > DurationOf(k, WatchIt, CollisionDialogueMs) then
      ToKiddingDialogue(k, c.(char1 := c.char1.WithTalking(false), char2 := c.char2.WithTalking(false)), now)
    else Out(c, [])
  }

  /** `_transition_to_kidding_dialogue`. */
  function ToKiddingDialogue(k: Setup, c: Ctrl, now: int): Out
    requires WellFormed(k)
  {
    var said := SayLine(k, c.current, KiddingLine);
    Out(c.(phase := KiddingDialogue, dialogueTimer := now, subtitleStartTime := now,
           currentDialogue := KiddingLine, dialogueSpeaker := "char1",
           char1 := c.char1.WithTalking(true), char2 := c.char2.WithTalking(false),
           current := said.current),
        said.calls)
  }

  /** `_update_kidding_dialogue`. */
  function UpdateKiddingDialogue(k: Setup, c: Ctrl, now: int): Out
    requires WellFormed(k)
  {
    if now - c.dialogueTimer > DurationOf(k, KiddingLine, KiddingDialogueMs) then
      ToHeyYaDialogue(k, c.(char1 := c.char1.WithTalking(false)), now)
    else Out(c, [])
  }

  /** `_transition_to_hey_ya_dialogue`. */
  function ToHeyYaDialogue(k: Setup, c: Ctrl, now: int): Out
    requires WellFormed(k)
  {
    var said := SayLine(k, c.current, HeyYaLine);
    Out(c.(phase := HeyYaDialogue, dialogueTimer := now, subtitleStartTime := now,
           currentDialogue := HeyYaLine, dialogueSpeaker := "char2",
           char1 := c.char1.WithTalking(false), char2 := c.char2.WithTalking(true),
           current := said.current),
        said.calls)
  }

  /** `_update_hey_ya_dialogue`. */
  function UpdateHeyYaDialogue(k: Setup, c: Ctrl, now: int): Out
  {
    if now - c.dialogueTimer > DurationOf(k, HeyYaLine, HeyYaDialogueMs) then
      Out(ToBumpSequence(c.(char2 := c.char2.WithTalking(false)), now), [])
    else Out(c, [])
  }

  // ----- BUMP_SEQUENCE -----

  /** A character setting off: smiling, walking at speed 3, facing `direction`. */
  function SetOff(b: Body, direction: int): Body
  {
    b.(smiling := true, speed := 3, walking := true, direction := direction)
  }

  /** `_transition_to_bump_sequence`. */
  function ToBumpSequence(c: Ctrl, now: int): Ctrl
  {
    c.(phase := BumpSequence, bumpCount := 0, bumpState := Approaching, bumpTimer := now,
       char1 := SetOff(c.char1, 1), char2 := SetOff(c.char2, -1),
       currentDialogue := "")
  }

  /** `_update_bump_sequence`. */
  function UpdateBumpSequence(k: Setup, c: Ctrl, now: int, env: Env): Out
  {
    var m := ManageWalkingSound(k, BothMoved(c), env);
    var r := BumpReaction(k, m.ctrl, now);
    Out(r.ctrl, m.calls + r.calls)
  }

  /** The second half of `_update_bump_sequence`, after both steps: an approach ends in a
      bump that turns both round; a back-up ends after 500 ms, either in the collision loop
      once the count has reached five or in a new approach. */
  function BumpReaction(k: Setup, d: Ctrl, now: int): Out
  {
    match d.bumpState
    case Approaching =>
      if Touching(d) then
        Out(d.(bumpCount := d.bumpCount + 1, bumpState := BackingUp, bumpTimer := now,
               char1 := d.char1.(direction := -1), char2 := d.char2.(direction := 1)),
            PlayDirect(k.collisionSound))
      else Out(d, [])
    case BackingUp =>
      if now - d.bumpTimer > BackUpMs then
        if d.bumpCount >= BumpsWanted then Out(ToCollisionLoop(d, now), [])
        else Out(d.(bumpState := Approaching,
                    char1 := d.char1.(direction := 1), char2 := d.char2.(direction := -1)),
                 [])
      else Out(d, [])
  }

  // ----- COLLISION_LOOP -----

  /** `_transition_to_collision_loop`. */
  function ToCollisionLoop(c: Ctrl, now: int): Ctrl
  {
    c.(phase := CollisionLoop, collisionStartTime := now,
       char1 := c.char1.(smiling := true, speed := 2, walking := true),
       char2 := c.char2.(smiling := true, speed := 2, walking := true),
       currentDialogue := "")
  }

  /** The screen-edge test of `_update_collision_loop`. */
  function WallBounce(b: Body): Body
  {
    if b.x < 0 then b.(direction := 1)
    else if b.x > ScreenWidth - b.width then b.(direction := -1)
    else b
  }

  /** The bounces of `_update_collision_loop`: touching characters turn round and are pushed
      5 px apart, then each is turned back from a screen edge it has passed. */
  function Bounced(d: Ctrl): Ctrl
  {
    var hit := Touching(d);
    var b1 := if hit then d.char1.Reversed().(x := d.char1.x - Separation) else d.char1;
    var b2 := if hit then d.char2.Reversed().(x := d.char2.x + Separation) else d.char2;
    d.(char1 := WallBounce(b1), char2 := WallBounce(b2))
  }

  /** The moves of `_update_collision_loop`, before its timing test: both step, the walking
      sound is managed, and a bounce between them plays the collision sound. */
  function CollisionLoopMoves(k: Setup, c: Ctrl, env: Env): Out
  {
    var m := ManageWalkingSound(k, BothMoved(c), env);
    Out(Bounced(m.ctrl), m.calls + (if Touching(m.ctrl) then PlayDirect(k.collisionSound) else []))
  }

  /** `_update_collision_loop`. */
  function UpdateCollisionLoop(k: Setup, c: Ctrl, now: int, env: Env): Out
    requires WellFormed(k)
  {
    var elapsed := now - c.collisionStartTime;
    var mv := CollisionLoopMoves(k, c, env);
    if elapsed > CollisionLoopMs then
      var t := ToFinalDialogue1(k, mv.ctrl, now);
      Out(t.ctrl, mv.calls + t.calls)
    else mv
  }

  // ----- FINAL_DIALOGUE_1, FINAL_DIALOGUE_2 -----

  /** `_transition_to_final_dialogue_1`. */
  function ToFinalDialogue1(k: Setup, c: Ctrl, now: int): Out
    requires WellFormed(k)
  {
    var stop := AfterStop(c.current);
    var said := SayLine(k, stop.current, WorkLine);
    Out(c.(phase := FinalDialogue1,
           char1 := Halted(c.char1, true), char2 := Halted(c.char2, false),
           dialogueTimer := now, subtitleStartTime := now,
           currentDialogue := WorkLine, dialogueSpeaker := "char1",
           current := said.current),
        stop.calls + said.calls)
  }

  /** `_update_final_dialogue_1`. */
  function UpdateFinalDialogue1(k: Setup, c: Ctrl, now: int): Out
    requires WellFormed(k)
  {
    if now - c.dialogueTimer > DurationOf(k, WorkLine, FinalDialogue1Ms) then
      ToFinalDialogue2(k, c.(char1 := c.char1.WithTalking(false)), now)
    else Out(c, [])
  }

  /** `_transition_to_final_dialogue_2`. */
  function ToFinalDialogue2(k: Setup, c: Ctrl, now: int): Out
    requires WellFormed(k)
  {
    var said := SayLine(k, c.current, DontCareLine);
    Out(c.(phase := FinalDialogue2, dialogueTimer := now, subtitleStartTime := now,
           currentDialogue := DontCareLine, dialogueSpeaker := "char2",
           char1 := c.char1.WithTalking(false), char2 := c.char2.WithTalking(true),
           current := said.current),
        said.calls)
  }

  /** `_update_final_dialogue_2`: the line's duration plus a 400 ms pause. */
  function UpdateFinalDialogue2(k: Setup, c: Ctrl, now: int): Out
  {
    if now - c.dialogueTimer > DurationOf(k, DontCareLine, FinalDialogue2Ms) + GraceMs then
      Out(ToAlienAbduction(c.(char2 := c.char2.WithTalking(false)), now), [])
    else Out(c, [])
  }

  // ----- ALIEN_ABDUCTION, WALKING_OUT, FINISHED -----

  /** `_transition_to_alien_abduction` (the UFO and beam are drawing state). */
  function ToAlienAbduction(c: Ctrl, now: int): Ctrl
  {
    c.(phase := AlienAbduction, abductionStartTime := now,
       char1 := c.char1.(speed := 0, walking := false),
       char2 := c.char2.(speed := 0, walking := false),
       currentDialogue := "")
  }

  /** `_update_alien_abduction`: only its timing gate. */
  function UpdateAlienAbduction(c: Ctrl, now: int): Ctrl
  {
    if now - c.abductionStartTime > AbductionMs then ToWalkingOut(c) else c
  }

  /** `_transition_to_walking_out`. */
  function ToWalkingOut(c: Ctrl): Ctrl
  {
    c.(phase := WalkingOut,
       char1 := SetOff(c.char1, 1), char2 := SetOff(c.char2, -1),
       currentDialogue := "")
  }

  /** Both characters are off screen: character 1 past the right edge, character 2 entirely
      past the left edge. */
  predicate Gone(c: Ctrl)
  {
    c.char1.x > ScreenWidth && c.char2.x < -c.char2.width
  }

  /** `_update_walking_out`. */
  function UpdateWalkingOut(k: Setup, c: Ctrl, env: Env): Out
  {
    var m := ManageWalkingSound(k, BothMoved(c), env);
    if Gone(m.ctrl) then
      var t := ToFinished(m.ctrl);
      Out(t.ctrl, m.calls + t.calls)
    else m
  }

  /** `_transition_to_finished`. */
  function ToFinished(c: Ctrl): Out
  {
    var stop := AfterStop(c.current);
    Out(c.(phase := Finished,
           char1 := c.char1.(walking := false, smiling := true),
           char2 := c.char2.(walking := false, smiling := true),
           current := stop.current, finishedTime := None),
        stop.calls)
  }

  /** `_update_finished`: stamp the clock once and show no dialogue. */
  function UpdateFinished(c: Ctrl, env: Env): Ctrl
  {
    c.(finishedTime := if c.finishedTime.None? then Some(env.ticks) else c.finishedTime,
       currentDialogue := "", dialogueSpeaker := "")
  }

  // ----- update -----

  /** `update(current_time)`: one tick. */
  function Step(k: Setup, c: Ctrl, now: int, env: Env): Out
    requires WellFormed(k)
  {
    match c.phase
    case CatRun => UpdateCatRun(k, c, now)
    case WalkingIn => UpdateWalkingIn(k, c, now, env)
    case Collision => UpdateCollision(k, c, now)
    case KiddingDialogue => UpdateKiddingDialogue(k, c, now)
    case HeyYaDialogue => UpdateHeyYaDialogue(k, c, now)
    case BumpSequence => UpdateBumpSequence(k, c, now, env)
    case CollisionLoop => UpdateCollisionLoop(k, c, now, env)
    case FinalDialogue1 => UpdateFinalDialogue1(k, c, now)
    case FinalDialogue2 => UpdateFinalDialogue2(k, c, now)
    case AlienAbduction => Out(UpdateAlienAbduction(c, now), [])
    case WalkingOut => UpdateWalkingOut(k, c, env)
    case Finished => Out(UpdateFinished(c, env), [])
  }

  /** One tick's inputs. */
  datatype Tick = Tick(now: int, env: Env)

  /** A run of ticks: the final state and every sound call, in order. */
  function Run(k: Setup, c: Ctrl, ticks: seq<Tick>): Out
    requires WellFormed(k)
    decreases |ticks|
  {
    if ticks == [] then Out(c, [])
    else
      var o := Step(k, c, ticks[0].now, ticks[0].env);
      var rest := Run(k, o.ctrl, ticks[1..]);
      Out(rest.ctrl, o.calls + rest.calls)
  }
}
