/** What the phase state machine of src/animation.py guarantees, stated about `Phases.Step`
    (one tick) and `Phases.Run` (any sequence of ticks). */
module PhaseProps {
  import opened Opt
  import opened Config
  import opened Characters
  import opened Audio
  import opened Phases

  // ----- order of phases -----

  /** A tick either stays in its phase or enters the next one: phases only move forward,
      one at a time. */
  lemma StepMovesAtMostOnePhase(k: Setup, c: Ctrl, now: int, env: Env)
    requires WellFormed(k)
    ensures var p := Step(k, c, now, env).ctrl.phase;
            && (p == c.phase || p == c.phase.Next())
            && p.Ordinal() >= c.phase.Ordinal()
  {
  }

  /** Over any run, the phase never goes back. */
  lemma {:induction false} RunNeverGoesBack(k: Setup, c: Ctrl, ticks: seq<Tick>)
    requires WellFormed(k)
    ensures Run(k, c, ticks).ctrl.phase.Ordinal() >= c.phase.Ordinal()
    decreases |ticks|
  {
    if ticks != [] {
      var o := Step(k, c, ticks[0].now, ticks[0].env);
      StepMovesAtMostOnePhase(k, c, ticks[0].now, ticks[0].env);
      RunNeverGoesBack(k, o.ctrl, ticks[1..]);
    }
  }

  /** `Finished` is terminal: it stamps the clock on its first tick only and never leaves. */
  lemma FinishedStaysFinished(k: Setup, c: Ctrl, now: int, env: Env)
    requires WellFormed(k) && c.phase == Finished
    ensures var r := Step(k, c, now, env);
            && r.ctrl.phase == Finished
            && r.calls == []
            && r.ctrl.finishedTime == (if c.finishedTime.None? then Some(env.ticks) else c.finishedTime)
            && r.ctrl.currentDialogue == "" && r.ctrl.dialogueSpeaker == ""
  {
  }

  /** Once finished, a run of any length stays finished, and its finish time, once set,
      is kept. */
  lemma {:induction false} RunStaysFinished(k: Setup, c: Ctrl, ticks: seq<Tick>)
    requires WellFormed(k) && c.phase == Finished
    ensures Run(k, c, ticks).ctrl.phase == Finished
    ensures Run(k, c, ticks).calls == []
    ensures c.finishedTime.Some? ==> Run(k, c, ticks).ctrl.finishedTime == c.finishedTime
    decreases |ticks|
  {
    if ticks != [] {
      var o := Step(k, c, ticks[0].now, ticks[0].env);
      FinishedStaysFinished(k, c, ticks[0].now, ticks[0].env);
      RunStaysFinished(k, o.ctrl, ticks[1..]);
    }
  }

  // ----- CAT_RUN -----

  /** The meow test `time_elapsed / 700 >= 0.55` is `time_elapsed >= 385`. */
  lemma MeowDueFrom385(elapsed: int)
    ensures MeowDue(elapsed) <==> elapsed >= 385
  {
  }

  /** The start time the cat run measures from after this tick (0 means unset). */
  function CatStart(c: Ctrl, now: int): int
  {
    if c.catStartTime == 0 then now else c.catStartTime
  }

  /** The cat run ends on the first tick at least 700 ms after its start, and not before;
      the tick that arms the timer never ends it. */
  lemma CatRunGate(k: Setup, c: Ctrl, now: int, env: Env)
    requires WellFormed(k) && c.phase == CatRun
    ensures var r := Step(k, c, now, env);
            && r.ctrl.catStartTime == CatStart(c, now)
            && (r.ctrl.phase == WalkingIn <==> now - CatStart(c, now) >= CatRunMs)
            && (r.ctrl.phase != WalkingIn ==> r.ctrl.phase == CatRun)
            && (c.catStartTime == 0 ==> r.ctrl.phase == CatRun)
  {
  }

  /** The meow fires on a tick exactly when the cat is between 385 and 700 ms into its run,
      the sound exists and it has not fired before; firing sets the flag, which never
      clears. */
  lemma MeowFlag(k: Setup, c: Ctrl, now: int, env: Env)
    requires WellFormed(k)
    ensures var r := Step(k, c, now, env);
            var elapsed := now - CatStart(c, now);
            && (c.meowPlayed ==> r.ctrl.meowPlayed)
            && r.ctrl.meowPlayed ==
                 (c.meowPlayed || (c.phase == CatRun && 385 <= elapsed < CatRunMs && k.meowSound.Some?))
            && (!c.meowPlayed && r.ctrl.meowPlayed ==> r.calls == [Play(k.meowSound.value)])
  {
    if c.phase == CatRun {
      MeowDueFrom385(now - CatStart(c, now));
    } else {
      CatFieldsKeptAfterCatRun(k, c, now, env);
    }
  }

  /** Outside the cat run, a tick leaves the cat's start time and the meow flag alone. */
  lemma CatFieldsKeptAfterCatRun(k: Setup, c: Ctrl, now: int, env: Env)
    requires WellFormed(k) && c.phase != CatRun
    ensures Step(k, c, now, env).ctrl.meowPlayed == c.meowPlayed
    ensures Step(k, c, now, env).ctrl.catStartTime == c.catStartTime
  {
    match c.phase {
      case WalkingIn =>
      case Collision =>
      case KiddingDialogue =>
      case HeyYaDialogue =>
      case BumpSequence =>
      case CollisionLoop =>
      case FinalDialogue1 =>
      case FinalDialogue2 =>
      case AlienAbduction =>
      case WalkingOut =>
      case Finished =>
    }
  }

  /** The sounds a dialogue clip is made of. */
  predicate HasSound(clip: DialogueClip, s: Sound)
  {
    match clip
    case Single(a) => a == s
    case Dual(a, b) => a == s || b == s
  }

  /** The meow sound is none of the other sounds the controller plays once. */
  predicate MeowIsOwnSound(k: Setup)
  {
    k.meowSound.Some? ==>
      && k.collisionSound != k.meowSound
      && forall text :: text in k.dialogueAudio ==> !HasSound(k.dialogueAudio[text], k.meowSound.value)
  }

  lemma SayLineIsNotMeow(k: Setup, current: Option<Sound>, text: string, m: Sound)
    requires WellFormed(k) && text != WatchIt && MeowIsOwnSound(k) && k.meowSound == Some(m)
    ensures Play(m) !in SayLine(k, current, text).calls
  {
    if text in k.dialogueAudio {
      assert !HasSound(k.dialogueAudio[text], m);
    }
  }

  lemma ManageIsNotMeow(k: Setup, c: Ctrl, env: Env, m: Sound)
    ensures Play(m) !in ManageWalkingSound(k, c, env).calls
  {
  }

  /** Outside the cat run, a tick never plays the meow sound. */
  lemma NoMeowAfterCatRun(k: Setup, c: Ctrl, now: int, env: Env)
    requires WellFormed(k) && MeowIsOwnSound(k) && k.meowSound.Some? && c.phase != CatRun
    ensures Play(k.meowSound.value) !in Step(k, c, now, env).calls
  {
    var m := k.meowSound.value;
    match c.phase {
      case WalkingIn =>
        var walked := BothMoved(c.(char1 := c.char1.(walking := true), char2 := c.char2.(walking := true)));
        ManageIsNotMeow(k, walked, env, m);
        if WatchIt in k.dialogueAudio {
          assert !HasSound(k.dialogueAudio[WatchIt], m);
        }
      case Collision =>
        SayLineIsNotMeow(k, c.current, KiddingLine, m);
      case KiddingDialogue =>
        SayLineIsNotMeow(k, c.current, HeyYaLine, m);
      case HeyYaDialogue =>
      case BumpSequence =>
        ManageIsNotMeow(k, BothMoved(c), env, m);
      case CollisionLoop =>
        ManageIsNotMeow(k, BothMoved(c), env, m);
        SayLineIsNotMeow(k, None, WorkLine, m);
      case FinalDialogue1 =>
        SayLineIsNotMeow(k, c.current, DontCareLine, m);
      case FinalDialogue2 =>
      case AlienAbduction =>
      case WalkingOut =>
        ManageIsNotMeow(k, BothMoved(c), env, m);
      case Finished =>
    }
  }

  /** A tick plays the meow sound once if it raises the flag and never otherwise. */
  lemma StepPlaysMeowOnlyWithFlag(k: Setup, c: Ctrl, now: int, env: Env)
    requires WellFormed(k) && MeowIsOwnSound(k) && k.meowSound.Some?
    ensures var r := Step(k, c, now, env);
            multiset(r.calls)[Play(k.meowSound.value)] == if !c.meowPlayed && r.ctrl.meowPlayed then 1 else 0
  {
    MeowFlag(k, c, now, env);
    if c.phase != CatRun {
      NoMeowAfterCatRun(k, c, now, env);
    }
  }

  /** Over any run the meow sound is played at most once, and not at all if it has already
      played: the flag guards the call although the gate stays open for many ticks. */
  lemma {:induction false} MeowPlaysAtMostOnce(k: Setup, c: Ctrl, ticks: seq<Tick>)
    requires WellFormed(k) && MeowIsOwnSound(k) && k.meowSound.Some?
    ensures var n := multiset(Run(k, c, ticks).calls)[Play(k.meowSound.value)];
            n <= 1 && (c.meowPlayed ==> n == 0)
    decreases |ticks|
  {
    if ticks != [] {
      var o := Step(k, c, ticks[0].now, ticks[0].env);
      StepPlaysMeowOnlyWithFlag(k, c, ticks[0].now, ticks[0].env);
      MeowFlag(k, c, ticks[0].now, ticks[0].env);
      MeowPlaysAtMostOnce(k, o.ctrl, ticks[1..]);
    }
  }

  // ----- WALKING_IN -----

  /** The walking-in tick enters the collision exactly when, after both steps, character 1's
      centre has reached 50 px left of the screen's middle and character 2's centre 50 px
      right of it. On entry both stop, stand still, smile and talk, the dialogue clock starts
      and "WATCH IT!" is shown for both speakers; the collision sound and both voices play. */
  lemma WalkingInMeets(k: Setup, c: Ctrl, now: int, env: Env)
    requires WellFormed(k) && c.phase == WalkingIn
    ensures var r := Step(k, c, now, env);
            var x1 := c.char1.x + c.char1.speed * c.char1.direction;
            var x2 := c.char2.x + c.char2.speed * c.char2.direction;
            var met := x1 + c.char1.width / 2 >= ScreenWidth / 2 - 50 && x2 + c.char2.width / 2 <= ScreenWidth / 2 + 50;
            && (r.ctrl.phase == Collision <==> met)
            && (!met ==> r.ctrl.phase == WalkingIn && r.ctrl.char1.x == x1 && r.ctrl.char2.x == x2
                         && r.ctrl.char1.walking && r.ctrl.char2.walking)
            && (met ==>
                  && r.ctrl.char1.x == x1 && r.ctrl.char2.x == x2
                  && r.ctrl.char1.speed == 0 && r.ctrl.char2.speed == 0
                  && !r.ctrl.char1.walking && !r.ctrl.char2.walking
                  && r.ctrl.char1.smiling && r.ctrl.char2.smiling
                  && r.ctrl.char1.talking && r.ctrl.char2.talking
                  && r.ctrl.dialogueTimer == now
                  && r.ctrl.currentDialogue == WatchIt && r.ctrl.dialogueSpeaker == "both"
                  && (k.collisionSound.Some? ==> Play(k.collisionSound.value) in r.calls)
                  && (WatchIt in k.dialogueAudio ==> ClipPlayed(k.dialogueAudio[WatchIt], r.calls)))
  {
  }

  /** Every sound of the clip was played. */
  predicate ClipPlayed(clip: DialogueClip, calls: seq<SoundCall>)
  {
    match clip
    case Single(s) => Play(s) in calls
    case Dual(a, b) => Play(a) in calls && Play(b) in calls
  }

  /** Both characters walk toward each other at the same speed. */
  predicate Approach(c: Ctrl, step: nat)
  {
    && c.phase == WalkingIn
    && c.char1.width == CharacterWidth && c.char2.width == CharacterWidth
    && c.char1.speed == CharacterSpeed && c.char2.speed == CharacterSpeed
    && c.char1.direction == 1 && c.char2.direction == -1
    && c.char1.x == -50 + CharacterSpeed * step
    && c.char2.x == ScreenWidth + 10 - CharacterSpeed * step
  }

  /** From the positions the export places the characters at (x = -50 and x = screen width
      + 10, walking toward each other at 3 px per tick), the walk-in lasts exactly 160 ticks,
      whatever the tick times: every earlier tick stays in WALKING_IN, the 160th enters the
      collision. */
  lemma {:induction false} WalkingInTakes160Ticks(k: Setup, c: Ctrl, step: nat, ticks: seq<Tick>)
    requires WellFormed(k) && step < 160 && Approach(c, step) && step + |ticks| <= 160
    ensures var r := Run(k, c, ticks).ctrl;
            if step + |ticks| < 160 then Approach(r, step + |ticks|) else r.phase == Collision
    decreases |ticks|
  {
    if ticks != [] {
      var o := Step(k, c, ticks[0].now, ticks[0].env);
      WalkingInMeets(k, c, ticks[0].now, ticks[0].env);
      if step + 1 < 160 {
        assert Approach(o.ctrl, step + 1);
        WalkingInTakes160Ticks(k, o.ctrl, step + 1, ticks[1..]);
      } else {
        assert ticks[1..] == [];
        assert Run(k, c, ticks).ctrl == o.ctrl;
      }
    }
  }

  // ----- dialogue phases -----

  /** The phases that show a line of dialogue. */
  predicate IsDialogue(p: Phase)
  {
    p == Collision || p == KiddingDialogue || p == HeyYaDialogue || p == FinalDialogue1 || p == FinalDialogue2
  }

  /** How long a dialogue phase holds: the clip's measured duration, or the configured one
      when none was measured, and 400 ms more after the last line. */
  function Hold(k: Setup, p: Phase): int
  {
    match p
    case Collision => DurationOf(k, WatchIt, CollisionDialogueMs)
    case KiddingDialogue => DurationOf(k, KiddingLine, KiddingDialogueMs)
    case HeyYaDialogue => DurationOf(k, HeyYaLine, HeyYaDialogueMs)
    case FinalDialogue1 => DurationOf(k, WorkLine, FinalDialogue1Ms)
    case FinalDialogue2 => DurationOf(k, DontCareLine, FinalDialogue2Ms) + GraceMs
    case _ => 0
  }

  /** A dialogue phase changes nothing until strictly more than its hold time has passed
      since its line started, and then enters the next phase. */
  lemma DialogueHolds(k: Setup, c: Ctrl, now: int, env: Env)
    requires WellFormed(k) && IsDialogue(c.phase)
    ensures var r := Step(k, c, now, env);
            && (now - c.dialogueTimer <= Hold(k, c.phase) ==> r == Out(c, []))
            && (now - c.dialogueTimer > Hold(k, c.phase) ==> r.ctrl.phase == c.phase.Next())
  {
  }

  /** The line each dialogue phase shows. */
  function LineOf(p: Phase): string
  {
    match p
    case Collision => WatchIt
    case KiddingDialogue => KiddingLine
    case HeyYaDialogue => HeyYaLine
    case FinalDialogue1 => WorkLine
    case FinalDialogue2 => DontCareLine
    case _ => ""
  }

  /** Who speaks in each dialogue phase. */
  function SpeakerOf(p: Phase): string
  {
    match p
    case Collision => "both"
    case KiddingDialogue => "char1"
    case HeyYaDialogue => "char2"
    case FinalDialogue1 => "char1"
    case FinalDialogue2 => "char2"
    case _ => ""
  }

  /** Entering a dialogue phase starts its clock at the current time, shows its line for its
      speaker, makes exactly the speaking characters talk, and plays the line's clip when
      one was loaded. */
  lemma DialogueEntry(k: Setup, c: Ctrl, now: int, env: Env)
    requires WellFormed(k)
    ensures var r := Step(k, c, now, env);
            var p := r.ctrl.phase;
            var speaker := SpeakerOf(p);
            p != c.phase && IsDialogue(p) ==>
              && r.ctrl.dialogueTimer == now
              && r.ctrl.currentDialogue == LineOf(p)
              && r.ctrl.dialogueSpeaker == speaker
              && r.ctrl.char1.talking == (speaker == "both" || speaker == "char1")
              && r.ctrl.char2.talking == (speaker == "both" || speaker == "char2")
              && (LineOf(p) in k.dialogueAudio ==> ClipPlayed(k.dialogueAudio[LineOf(p)], r.calls))
  {
    StepMovesAtMostOnePhase(k, c, now, env);
    match c.phase {
      case WalkingIn => WalkingInMeets(k, c, now, env);
      case Collision => LineAfterLine(k, c, now, env);
      case KiddingDialogue => LineAfterLine(k, c, now, env);
      case FinalDialogue1 => LineAfterLine(k, c, now, env);
      case CollisionLoop => CollisionLoopEntersFinalDialogue1(k, c, now, env);
      case _ =>
    }
  }

  /** A dialogue that ends and hands over to the next line enters it as `DialogueEntry`
      says. */
  lemma LineAfterLine(k: Setup, c: Ctrl, now: int, env: Env)
    requires WellFormed(k)
    requires c.phase == Collision || c.phase == KiddingDialogue || c.phase == FinalDialogue1
    ensures var r := Step(k, c, now, env);
            var p := r.ctrl.phase;
            var speaker := SpeakerOf(p);
            p != c.phase ==>
              && r.ctrl.dialogueTimer == now
              && r.ctrl.currentDialogue == LineOf(p)
              && r.ctrl.dialogueSpeaker == speaker
              && r.ctrl.char1.talking == (speaker == "both" || speaker == "char1")
              && r.ctrl.char2.talking == (speaker == "both" || speaker == "char2")
              && (LineOf(p) in k.dialogueAudio ==> ClipPlayed(k.dialogueAudio[LineOf(p)], r.calls))
  {
  }

  lemma CollisionLoopEntersFinalDialogue1(k: Setup, c: Ctrl, now: int, env: Env)
    requires WellFormed(k) && c.phase == CollisionLoop
    ensures var r := Step(k, c, now, env);
            r.ctrl.phase == FinalDialogue1 ==>
              && r.ctrl.dialogueTimer == now
              && r.ctrl.currentDialogue == WorkLine && r.ctrl.dialogueSpeaker == "char1"
              && r.ctrl.char1.talking && !r.ctrl.char2.talking
              && (WorkLine in k.dialogueAudio ==> ClipPlayed(k.dialogueAudio[WorkLine], r.calls))
  {
    var mv := CollisionLoopMoves(k, c, env);
    if now - c.collisionStartTime > CollisionLoopMs {
      var t := ToFinalDialogue1(k, mv.ctrl, now);
      assert Step(k, c, now, env) == Out(t.ctrl, mv.calls + t.calls);
    }
  }

  // ----- invariant -----

  /** Phases in which nobody moves. */
  predicate Paused(p: Phase)
  {
    IsDialogue(p) || p == AlienAbduction
  }

  /** What holds of every state the controller reaches: at most five bumps, fewer than five
      while approaching, both characters facing left or right, and nobody walking in the
      paused phases. */
  predicate Inv(c: Ctrl)
  {
    && 0 <= c.bumpCount <= BumpsWanted
    && (c.phase == BumpSequence && c.bumpState == Approaching ==> c.bumpCount < BumpsWanted)
    && Facing(c.char1) && Facing(c.char2)
    && (Paused(c.phase) ==>
          c.char1.speed == 0 && c.char2.speed == 0 && !c.char1.walking && !c.char2.walking)
  }

  lemma InitialInv(char1: Body, char2: Body, current: Option<Sound>)
    requires Facing(char1) && Facing(char2)
    ensures Inv(Initial(char1, char2, current))
  {
  }

  lemma StepKeepsInv(k: Setup, c: Ctrl, now: int, env: Env)
    requires WellFormed(k) && Inv(c)
    ensures Inv(Step(k, c, now, env).ctrl)
  {
    match c.phase {
      case WalkingIn => WalkingInKeepsInv(k, c, now, env);
      case BumpSequence => BumpSequenceKeepsInv(k, c, now, env);
      case CollisionLoop => CollisionLoopKeepsInv(k, c, now, env);
      case CatRun => EarlyPhasesKeepInv(k, c, now, env);
      case Collision => EarlyPhasesKeepInv(k, c, now, env);
      case KiddingDialogue => EarlyPhasesKeepInv(k, c, now, env);
      case HeyYaDialogue => EarlyPhasesKeepInv(k, c, now, env);
      case FinalDialogue1 => LatePhasesKeepInv(k, c, now, env);
      case FinalDialogue2 => LatePhasesKeepInv(k, c, now, env);
      case AlienAbduction => LatePhasesKeepInv(k, c, now, env);
      case WalkingOut => LatePhasesKeepInv(k, c, now, env);
      case Finished => LatePhasesKeepInv(k, c, now, env);
    }
  }

  lemma EarlyPhasesKeepInv(k: Setup, c: Ctrl, now: int, env: Env)
    requires WellFormed(k) && Inv(c)
    requires c.phase == CatRun || c.phase == Collision || c.phase == KiddingDialogue || c.phase == HeyYaDialogue
    ensures Inv(Step(k, c, now, env).ctrl)
  {
  }

  lemma LatePhasesKeepInv(k: Setup, c: Ctrl, now: int, env: Env)
    requires WellFormed(k) && Inv(c)
    requires c.phase == FinalDialogue1 || c.phase == FinalDialogue2 || c.phase == AlienAbduction
          || c.phase == WalkingOut || c.phase == Finished
    ensures Inv(Step(k, c, now, env).ctrl)
  {
    if c.phase == WalkingOut {
      WalkingSoundFollowsWalking(k, BothMoved(c), env);
    }
  }

  lemma WalkingInKeepsInv(k: Setup, c: Ctrl, now: int, env: Env)
    requires WellFormed(k) && Inv(c) && c.phase == WalkingIn
    ensures Inv(Step(k, c, now, env).ctrl)
  {
    WalkingSoundFollowsWalking(k, BothMoved(c.(char1 := c.char1.(walking := true), char2 := c.char2.(walking := true))), env);
  }

  lemma BumpSequenceKeepsInv(k: Setup, c: Ctrl, now: int, env: Env)
    requires WellFormed(k) && Inv(c) && c.phase == BumpSequence
    ensures Inv(Step(k, c, now, env).ctrl)
  {
    WalkingSoundFollowsWalking(k, BothMoved(c), env);
  }

  lemma CollisionLoopKeepsInv(k: Setup, c: Ctrl, now: int, env: Env)
    requires WellFormed(k) && Inv(c) && c.phase == CollisionLoop
    ensures Inv(Step(k, c, now, env).ctrl)
  {
    var d := BothMoved(c);
    WalkingSoundFollowsWalking(k, d, env);
    var m := ManageWalkingSound(k, d, env);
    BouncedKeepsFacing(m.ctrl);
    var mv := CollisionLoopMoves(k, c, env);
    assert mv.ctrl.phase == CollisionLoop && mv.ctrl.bumpCount == c.bumpCount;
    assert Inv(mv.ctrl);
    if now - c.collisionStartTime > CollisionLoopMs {
      assert Step(k, c, now, env).ctrl == ToFinalDialogue1(k, mv.ctrl, now).ctrl;
    } else {
      assert Step(k, c, now, env).ctrl == mv.ctrl;
    }
  }

  /** The bounces of the collision loop change only the characters and keep them facing
      left or right. */
  lemma BouncedKeepsFacing(d: Ctrl)
    requires Facing(d.char1) && Facing(d.char2)
    ensures Bounced(d) == d.(char1 := Bounced(d).char1, char2 := Bounced(d).char2)
    ensures Facing(Bounced(d).char1) && Facing(Bounced(d).char2)
  {
    var hit := Touching(d);
    var b1 := if hit then d.char1.Reversed().(x := d.char1.x - Separation) else d.char1;
    var b2 := if hit then d.char2.Reversed().(x := d.char2.x + Separation) else d.char2;
    WallBounceFacts(b1);
    WallBounceFacts(b2);
  }

  lemma {:induction false} RunKeepsInv(k: Setup, c: Ctrl, ticks: seq<Tick>)
    requires WellFormed(k) && Inv(c)
    ensures Inv(Run(k, c, ticks).ctrl)
    decreases |ticks|
  {
    if ticks != [] {
      var o := Step(k, c, ticks[0].now, ticks[0].env);
      StepKeepsInv(k, c, ticks[0].now, ticks[0].env);
      RunKeepsInv(k, o.ctrl, ticks[1..]);
    }
  }

  // ----- BUMP_SEQUENCE -----

  /** Entering the bump sequence resets the counter and sends the characters toward each
      other at 3 px per tick. */
  lemma BumpEntry(k: Setup, c: Ctrl, now: int, env: Env)
    requires WellFormed(k) && c.phase == HeyYaDialogue
    ensures var r := Step(k, c, now, env).ctrl;
            r.phase == BumpSequence ==>
              && r.bumpCount == 0 && r.bumpState == Approaching && r.bumpTimer == now
              && r.char1.direction == 1 && r.char2.direction == -1
              && r.char1.speed == 3 && r.char2.speed == 3
  {
  }

  /** One bump-sequence tick: the counter rises by exactly one when, and only when, the
      approach turns into backing up, which reverses both directions and starts the back-up
      clock; the phase is left only from backing up, more than 500 ms after the bump, once
      five bumps have been counted. */
  lemma BumpTick(k: Setup, c: Ctrl, now: int, env: Env)
    requires WellFormed(k) && c.phase == BumpSequence
    ensures var r := Step(k, c, now, env).ctrl;
            var bumped := c.bumpState == Approaching && r.bumpState == BackingUp;
            && r.bumpCount == c.bumpCount + (if bumped then 1 else 0)
            && (bumped ==> r.char1.direction == -1 && r.char2.direction == 1 && r.bumpTimer == now)
            && (bumped <==> c.bumpState == Approaching && Touching(BothMoved(c)))
            && (r.phase != BumpSequence ==>
                  && r.phase == CollisionLoop
                  && c.bumpState == BackingUp && now - c.bumpTimer > BackUpMs && c.bumpCount >= BumpsWanted)
  {
  }

  /** Hence the bump sequence always ends with exactly five bumps counted. */
  lemma BumpSequenceEndsWithFive(k: Setup, c: Ctrl, now: int, env: Env)
    requires WellFormed(k) && Inv(c) && c.phase == BumpSequence
    ensures var r := Step(k, c, now, env).ctrl;
            r.phase != BumpSequence ==> c.bumpCount == BumpsWanted && r.bumpCount == BumpsWanted
  {
    BumpTick(k, c, now, env);
  }

  // ----- COLLISION_LOOP -----

  /** The screen-edge test only turns a character, and always to face the screen. */
  lemma WallBounceFacts(b: Body)
    ensures WallBounce(b) == b.(direction := WallBounce(b).direction)
    ensures b.x < 0 ==> WallBounce(b).direction == 1
    ensures 0 <= b.x && b.x > ScreenWidth - b.width ==> WallBounce(b).direction == -1
    ensures 0 <= b.x <= ScreenWidth - b.width ==> WallBounce(b) == b
    ensures Facing(b) ==> Facing(WallBounce(b))
  {
  }

  /** One collision-loop tick. After both steps, touching characters reverse and are pushed
      5 px apart in the same tick; then a character left of the screen turns right and one
      past the right edge turns left. */
  lemma CollisionLoopTick(k: Setup, c: Ctrl, now: int, env: Env)
    requires WellFormed(k) && c.phase == CollisionLoop
    ensures var r := Step(k, c, now, env).ctrl;
            var d := BothMoved(c);
            var hit := Touching(d);
            && r.char1.x == (if hit then d.char1.x - Separation else d.char1.x)
            && r.char2.x == (if hit then d.char2.x + Separation else d.char2.x)
            && (r.char1.x < 0 ==> r.char1.direction == 1)
            && (0 <= r.char1.x && r.char1.x > ScreenWidth - r.char1.width ==> r.char1.direction == -1)
            && (r.char2.x < 0 ==> r.char2.direction == 1)
            && (0 <= r.char2.x && r.char2.x > ScreenWidth - r.char2.width ==> r.char2.direction == -1)
            && (0 <= r.char1.x <= ScreenWidth - r.char1.width ==>
                  r.char1.direction == (if hit then -c.char1.direction else c.char1.direction))
            && (0 <= r.char2.x <= ScreenWidth - r.char2.width ==>
                  r.char2.direction == (if hit then -c.char2.direction else c.char2.direction))
  {
    CollisionLoopPlaces(k, c, now, env);
    BounceGeometry(BothMoved(c));
  }

  /** A collision-loop tick leaves the characters where the bounces after both steps put
      them, facing the same way, whether or not the loop ends on that tick. */
  lemma CollisionLoopPlaces(k: Setup, c: Ctrl, now: int, env: Env)
    requires WellFormed(k) && c.phase == CollisionLoop
    ensures var r := Step(k, c, now, env).ctrl;
            var b := Bounced(BothMoved(c));
            && r.char1.x == b.char1.x && r.char1.direction == b.char1.direction
            && r.char2.x == b.char2.x && r.char2.direction == b.char2.direction
            && r.char1.width == b.char1.width && r.char2.width == b.char2.width
  {
    var d := BothMoved(c);
    WalkingSoundFollowsWalking(k, d, env);
    var m := ManageWalkingSound(k, d, env);
    assert Bounced(m.ctrl).char1 == Bounced(d).char1 && Bounced(m.ctrl).char2 == Bounced(d).char2;
  }

  /** Where the bounces of one collision-loop tick leave the two characters, and which way
      they then face. */
  lemma BounceGeometry(d: Ctrl)
    ensures var r := Bounced(d);
            var hit := Touching(d);
            && r.char1.x == (if hit then d.char1.x - Separation else d.char1.x)
            && r.char2.x == (if hit then d.char2.x + Separation else d.char2.x)
            && (r.char1.x < 0 ==> r.char1.direction == 1)
            && (0 <= r.char1.x && r.char1.x > ScreenWidth - r.char1.width ==> r.char1.direction == -1)
            && (r.char2.x < 0 ==> r.char2.direction == 1)
            && (0 <= r.char2.x && r.char2.x > ScreenWidth - r.char2.width ==> r.char2.direction == -1)
            && (0 <= r.char1.x <= ScreenWidth - r.char1.width ==>
                  r.char1.direction == (if hit then -d.char1.direction else d.char1.direction))
            && (0 <= r.char2.x <= ScreenWidth - r.char2.width ==>
                  r.char2.direction == (if hit then -d.char2.direction else d.char2.direction))
  {
    var hit := Touching(d);
    var b1 := if hit then d.char1.Reversed().(x := d.char1.x - Separation) else d.char1;
    var b2 := if hit then d.char2.Reversed().(x := d.char2.x + Separation) else d.char2;
    WallBounceFacts(b1);
    WallBounceFacts(b2);
  }

  /** The collision loop ends on the first tick more than 6000 ms after it began, stopping
      both characters with character 1 saying "Okay I have to go to work". */
  lemma CollisionLoopEnds(k: Setup, c: Ctrl, now: int, env: Env)
    requires WellFormed(k) && c.phase == CollisionLoop
    ensures var r := Step(k, c, now, env).ctrl;
            && (r.phase != CollisionLoop <==> now - c.collisionStartTime > CollisionLoopMs)
            && (r.phase != CollisionLoop ==>
                  && r.phase == FinalDialogue1
                  && r.char1.speed == 0 && r.char2.speed == 0
                  && !r.char1.walking && !r.char2.walking
                  && r.char1.talking && !r.char2.talking
                  && r.currentDialogue == WorkLine && r.dialogueSpeaker == "char1"
                  && r.dialogueTimer == now)
  {
  }

  // ----- ALIEN_ABDUCTION, WALKING_OUT -----

  /** The abduction ends on the first tick more than 4000 ms after it began, sending
      character 1 right and character 2 left at 3 px per tick. */
  lemma AbductionGate(k: Setup, c: Ctrl, now: int, env: Env)
    requires WellFormed(k) && c.phase == AlienAbduction
    ensures var r := Step(k, c, now, env);
            && r.calls == []
            && (r.ctrl.phase == WalkingOut <==> now - c.abductionStartTime > AbductionMs)
            && (r.ctrl.phase != WalkingOut ==> r.ctrl == c)
            && (r.ctrl.phase == WalkingOut ==>
                  && r.ctrl.char1.direction == 1 && r.ctrl.char2.direction == -1
                  && r.ctrl.char1.speed == 3 && r.ctrl.char2.speed == 3
                  && r.ctrl.char1.walking && r.ctrl.char2.walking)
  {
  }

  /** The walk-out ends exactly when, after both steps, character 1 is past the right edge
      and character 2 entirely past the left edge; the current sound is then stopped. */
  lemma WalkingOutGate(k: Setup, c: Ctrl, now: int, env: Env)
    requires WellFormed(k) && c.phase == WalkingOut
    ensures var r := Step(k, c, now, env).ctrl;
            var d := BothMoved(c);
            && (r.phase == Finished <==> d.char1.x > ScreenWidth && d.char2.x < -d.char2.width)
            && (r.phase == Finished ==>
                  r.current == None && r.finishedTime == None && !r.char1.walking && !r.char2.walking)
  {
  }

  // ----- walking sound -----

  /** `_manage_walking_sound` changes only the current sound. While someone walks and there
      is a walking sound, that sound is current afterwards; while nobody walks, the walking
      sound is not playing afterwards. It makes at most one call. */
  lemma WalkingSoundFollowsWalking(k: Setup, c: Ctrl, env: Env)
    ensures var m := ManageWalkingSound(k, c, env);
            && m.ctrl == c.(current := m.ctrl.current)
            && |m.calls| <= 1
            && (AnyoneWalking(c) && k.walkingSound.Some? ==> m.ctrl.current == k.walkingSound)
            && (!AnyoneWalking(c) ==> !IsPlaying(m.ctrl.current, k.walkingSound, env.walkingChannels))
            && (m.calls != [] ==>
                  m.calls == (if AnyoneWalking(c) then [PlayLooping(k.walkingSound.value)]
                              else [Stop(k.walkingSound.value)]))
  {
  }
}
