/** The audio-event recorder of `export_tiktok_video` (export_tiktok_final.py): once per frame
    it turns phase changes and overlaps into timestamped sound events, keeps an open
    walking-loop span, updates the animation, and stops a second after the animation has
    finished. Drawing and frame capture are not modelled. */
module Recorder {
  import opened Opt
  import opened Config
  import opened Characters
  import opened Audio
  import opened Phases
  import opened PhaseProps
  import opened Animation

  /** One entry of `audio_events`. */
  datatype AudioEvent =
    | Meow(at: int)
    | Collide(at: int)
    | Dialogue(at: int, file: string)
    | Walking(at: int, durationMs: int)

  /** Where the meow is placed after the start of the cat run, in ms. */
  const MeowOffsetMs: int := 385
  /** How long the recorder keeps going after the animation has finished, in ms. */
  const FinishHoldMs: int := 1000

  const WatchItFirstFile: string := "assets/01_01_watch_it.wav"
  const WatchItSecondFile: string := "assets/01_02_watch_it.wav"
  const KiddingFile: string := "assets/02_01_just_kidding.wav"
  const HeyYaFile: string := "assets/03_02_hey_ya.wav"
  const WorkFile: string := "assets/04_01_go_to_work.wav"
  const DontCareFile: string := "assets/05_02_i_dont_care.wav"

  /** Python truthiness of an optional millisecond time: `None` and `0` are both false. */
  predicate Truthy(t: Option<int>)
  {
    t.Some? && t.value != 0
  }

  /** Closing the walking span at `now`, if one is open. */
  function CloseSpan(span: Option<int>, now: int): seq<AudioEvent>
  {
    if Truthy(span) then [Walking(span.value, now - span.value)] else []
  }

  /** What a phase change leaves as the open span and appends to the events. */
  datatype Entry = Entry(span: Option<int>, added: seq<AudioEvent>)

  /** The body of `if current_phase != last_phase:` for the phase just entered. */
  function OnPhase(p: Phase, now: int, span: Option<int>, frameCount: nat): Entry
  {
    match p
    case CatRun => Entry(span, if frameCount > 0 then [Meow(now + MeowOffsetMs)] else [])
    case WalkingIn => Entry(Some(now), [])
    case Collision =>
      Entry(if Truthy(span) then None else span,
            CloseSpan(span, now) + [Collide(now), Dialogue(now, WatchItFirstFile), Dialogue(now, WatchItSecondFile)])
    case KiddingDialogue => Entry(span, [Dialogue(now, KiddingFile)])
    case HeyYaDialogue => Entry(span, [Dialogue(now, HeyYaFile)])
    case BumpSequence => Entry(Some(now), [])
    case CollisionLoop => Entry(Some(now), CloseSpan(span, now))
    case FinalDialogue1 =>
      Entry(if Truthy(span) then None else span, CloseSpan(span, now) + [Dialogue(now, WorkFile)])
    case FinalDialogue2 => Entry(span, [Dialogue(now, DontCareFile)])
    case AlienAbduction => Entry(span, [])
    case WalkingOut => Entry(Some(now), [])
    case Finished => Entry(span, [])
  }

  /** The recorder's variables: `last_phase`, `walking_start_time`, `audio_events` and
      `frame_count`. */
  datatype Rec = Rec(lastPhase: Option<Phase>, walkingStart: Option<int>, events: seq<AudioEvent>, frameCount: nat)

  const StartRec: Rec := Rec(None, None, [], 0)

  /** One pass of the loop's inputs: the time `pygame.time.get_ticks()` gives, whether a QUIT
      event is pending, and what the animation's update reads from pygame. */
  datatype Frame = Frame(now: int, quit: bool, env: Env)

  /** The animation, the recorder, and `running`. */
  datatype Session = Session(ctrl: Ctrl, rec: Rec, running: bool)

  /** The phase-change step: events are appended only when the phase differs from the last
      one seen. */
  function RecordPhase(r: Rec, p: Phase, now: int): Rec
  {
    if r.lastPhase != Some(p) then
      var e := OnPhase(p, now, r.walkingStart, r.frameCount);
      r.(walkingStart := e.span, events := r.events + e.added, lastPhase := Some(p))
    else r
  }

  /** The characters overlap in a phase whose collisions the recorder tracks. */
  predicate Overlapping(c: Ctrl)
  {
    (c.phase == BumpSequence || c.phase == CollisionLoop) && Touching(c)
  }

  /** The animation has been finished for more than a second. */
  predicate Finishing(c: Ctrl, now: int)
  {
    c.phase == Finished && Truthy(c.finishedTime) && now - c.finishedTime.value > FinishHoldMs
  }

  /** One pass of `while running:`. A QUIT event ends the loop after this pass without
      closing the open span; so does finishing, which closes it. */
  function ExportFrame(k: Setup, s: Session, f: Frame): Session
    requires WellFormed(k)
  {
    RecordAround(s, f, Step(k, s.ctrl, f.now, f.env).ctrl)
  }

  /** The recorder's part of one pass, around an update that leaves the animation as `c`. */
  function RecordAround(s: Session, f: Frame, c: Ctrl): Session
  {
    var r1 := RecordPhase(s.rec, s.ctrl.phase, f.now);
    var r2 := if Overlapping(s.ctrl) then r1.(events := r1.events + [Collide(f.now)]) else r1;
    var done := Finishing(c, f.now);
    var r3 := if done then r2.(events := r2.events + CloseSpan(r2.walkingStart, f.now)) else r2;
    Session(c, r3.(frameCount := r3.frameCount + 1), !f.quit && !done)
  }

  /** The loop over the frames it is given, until `running` is false. */
  function Export(k: Setup, s: Session, frames: seq<Frame>): Session
    requires WellFormed(k)
    decreases |frames|
  {
    if !s.running || frames == [] then s
    else Export(k, ExportFrame(k, s, frames[0]), frames[1..])
  }

  // ----- properties of one frame -----

  /** Once the phase has been seen, a frame appends no phase events: only a collision at
      `now` for an overlap, and the closing walking span when the animation is done. The
      last phase seen is always the one the frame started in, and the frame counter rises
      by one. */
  lemma FrameWithoutPhaseChange(k: Setup, s: Session, f: Frame)
    requires WellFormed(k)
    ensures var t := ExportFrame(k, s, f);
            && t.rec.lastPhase == Some(s.ctrl.phase)
            && t.rec.frameCount == s.rec.frameCount + 1
            && |t.rec.events| >= |s.rec.events| && t.rec.events[..|s.rec.events|] == s.rec.events
            && (s.rec.lastPhase == Some(s.ctrl.phase) ==>
                  forall i :: |s.rec.events| <= i < |t.rec.events| ==>
                    t.rec.events[i] == Collide(f.now) || t.rec.events[i].Walking?)
  {
  }

  /** Entering the collision closes an open walking span at `now` (an event running from
      its start to `now`, after which no span is open), then records the collision sound
      and both "WATCH IT!" clips at `now`. */
  lemma CollisionEntryEvents(now: int, span: Option<int>, frameCount: nat)
    ensures var e := OnPhase(Collision, now, span, frameCount);
            var n := if Truthy(span) then 1 else 0;
            && |e.added| == n + 3
            && e.added[n..] == [Collide(now), Dialogue(now, WatchItFirstFile), Dialogue(now, WatchItSecondFile)]
            && (Truthy(span) ==>
                  e.span == None && e.added[0].Walking? && e.added[0].at == span.value
                  && e.added[0].at + e.added[0].durationMs == now)
            && (!Truthy(span) ==> e.span == span)
  {
  }

  /** Entering the collision loop closes the bump sequence's span and opens a new one at
      `now`; entering the first final dialogue closes it and records the line. */
  lemma CollisionLoopSpans(now: int, span: Option<int>, frameCount: nat)
    ensures var e := OnPhase(CollisionLoop, now, span, frameCount);
            && e.span == Some(now)
            && e.added == (if Truthy(span) then [Walking(span.value, now - span.value)] else [])
    ensures var e := OnPhase(FinalDialogue1, now, span, frameCount);
            var n := if Truthy(span) then 1 else 0;
            && |e.added| == n + 1 && e.added[n] == Dialogue(now, WorkFile)
            && (Truthy(span) ==> e.span == None && e.added[0] == Walking(span.value, now - span.value))
  {
  }

  /** A span opened at time 0 counts as no span: it is never closed into an event. */
  lemma ZeroStartIsNoSpan(p: Phase, now: int, frameCount: nat)
    ensures forall i :: 0 <= i < |OnPhase(p, now, Some(0), frameCount).added| ==>
              !OnPhase(p, now, Some(0), frameCount).added[i].Walking?
  {
  }

  /** The frame that ends the run because the animation is done closes a span that is still
      open, ending it at the frame's own time; a frame that ends it because of QUIT leaves
      the span open and records nothing for it. */
  lemma LastFrameClosesSpan(k: Setup, s: Session, f: Frame)
    requires WellFormed(k)
    ensures var t := ExportFrame(k, s, f);
            var open := RecordPhase(s.rec, s.ctrl.phase, f.now).walkingStart;
            && t.rec.walkingStart == open
            && t.running == (!f.quit && !Finishing(t.ctrl, f.now))
            && (Finishing(t.ctrl, f.now) && Truthy(open) ==>
                  t.rec.events[|t.rec.events| - 1] == Walking(open.value, f.now - open.value))
            && (!Finishing(t.ctrl, f.now) ==>
                  forall i :: |RecordPhase(s.rec, s.ctrl.phase, f.now).events| <= i < |t.rec.events| ==>
                    t.rec.events[i] == Collide(f.now))
  {
  }

  /** Collision events are recorded only in the bump sequence and the collision loop, one
      for each frame whose rectangles overlap before the update. */
  lemma CollisionTracking(k: Setup, s: Session, f: Frame)
    requires WellFormed(k) && s.rec.lastPhase == Some(s.ctrl.phase)
    ensures var t := ExportFrame(k, s, f);
            var added := t.rec.events[|s.rec.events|..];
            (Collide(f.now) in added) <==> Overlapping(s.ctrl)
  {
  }

  /** Every dialogue file the recorder names is one the audio manager loads a line from. */
  lemma DialogueFilesAreScriptFiles(p: Phase, now: int, span: Option<int>, frameCount: nat)
    ensures forall i :: 0 <= i < |OnPhase(p, now, span, frameCount).added| && OnPhase(p, now, span, frameCount).added[i].Dialogue? ==>
              OnPhase(p, now, span, frameCount).added[i].file in DialogueFiles.Values
  {
    assert DialogueFiles[WatchItFirstKey] == WatchItFirstFile;
    assert DialogueFiles[WatchItSecondKey] == WatchItSecondFile;
    assert DialogueFiles["Just kidding, running into people is fun!"] == KiddingFile;
    assert DialogueFiles["Hey ya!"] == HeyYaFile;
    assert DialogueFiles["Okay I have to go to work"] == WorkFile;
    assert DialogueFiles["I don't care"] == DontCareFile;
  }

  // ----- properties of a whole run -----

  /** The event list never holds a meow. */
  predicate NoMeow(events: seq<AudioEvent>)
  {
    forall i :: 0 <= i < |events| ==> !events[i].Meow?
  }

  /** After the first frame the last phase seen is never ahead of the animation's phase. */
  predicate SeenBehind(s: Session)
  {
    s.rec.frameCount > 0 ==> s.rec.lastPhase.Some? && s.rec.lastPhase.value.Ordinal() <= s.ctrl.phase.Ordinal()
  }

  lemma NoMeowInFrame(k: Setup, s: Session, f: Frame)
    requires WellFormed(k) && SeenBehind(s) && NoMeow(s.rec.events)
    ensures SeenBehind(ExportFrame(k, s, f)) && NoMeow(ExportFrame(k, s, f).rec.events)
  {
    StepMovesAtMostOnePhase(k, s.ctrl, f.now, f.env);
    var r1 := RecordPhase(s.rec, s.ctrl.phase, f.now);
    assert NoMeow(r1.events) by {
      if s.rec.lastPhase != Some(s.ctrl.phase) {
        assert s.ctrl.phase == CatRun ==> s.rec.frameCount == 0;
      }
    }
  }

  /** The meow guard asks for `frame_count > 0`, but the cat run is the phase of the very
      first frame and is never entered again, so the export never records a meow. */
  lemma {:induction false} NoMeowEver(k: Setup, s: Session, frames: seq<Frame>)
    requires WellFormed(k) && SeenBehind(s) && NoMeow(s.rec.events)
    ensures NoMeow(Export(k, s, frames).rec.events)
    decreases |frames|
  {
    if s.running && frames != [] {
      NoMeowInFrame(k, s, frames[0]);
      NoMeowEver(k, ExportFrame(k, s, frames[0]), frames[1..]);
    }
  }

  /** Every walking span in the list has a non-negative length. */
  predicate SpansNonNegative(events: seq<AudioEvent>)
  {
    forall i :: 0 <= i < |events| && events[i].Walking? ==> events[i].durationMs >= 0
  }

  /** The open span, if any, did not start after `t`. */
  predicate OpenedBy(r: Rec, t: int)
  {
    r.walkingStart.Some? ==> r.walkingStart.value <= t
  }

  /** Frame times never go back. */
  predicate Monotone(frames: seq<Frame>)
  {
    forall i, j :: 0 <= i < j < |frames| ==> frames[i].now <= frames[j].now
  }

  lemma SpansInFrame(k: Setup, s: Session, f: Frame)
    requires WellFormed(k) && OpenedBy(s.rec, f.now) && SpansNonNegative(s.rec.events)
    ensures OpenedBy(ExportFrame(k, s, f).rec, f.now)
    ensures SpansNonNegative(ExportFrame(k, s, f).rec.events)
  {
    var r1 := RecordPhase(s.rec, s.ctrl.phase, f.now);
    assert OpenedBy(r1, f.now) && SpansNonNegative(r1.events);
  }

  /** When frame times never go back, every recorded walking span has a non-negative
      length. */
  lemma {:induction false} SpansNeverNegative(k: Setup, s: Session, frames: seq<Frame>)
    requires WellFormed(k) && Monotone(frames) && SpansNonNegative(s.rec.events)
    requires frames != [] ==> OpenedBy(s.rec, frames[0].now)
    ensures SpansNonNegative(Export(k, s, frames).rec.events)
    decreases |frames|
  {
    if s.running && frames != [] {
      SpansInFrame(k, s, frames[0]);
      var t := ExportFrame(k, s, frames[0]);
      if |frames| > 1 {
        assert OpenedBy(t.rec, frames[1].now);
      }
      SpansNeverNegative(k, t, frames[1..]);
    }
  }

  /** A fresh recording, with frame times that never go back, records no meow and no
      walking span of negative length. */
  lemma FromStart(k: Setup, c: Ctrl, frames: seq<Frame>)
    requires WellFormed(k) && Monotone(frames)
    ensures var s := Export(k, Session(c, StartRec, true), frames);
            NoMeow(s.rec.events) && SpansNonNegative(s.rec.events)
  {
    NoMeowEver(k, Session(c, StartRec, true), frames);
    SpansNeverNegative(k, Session(c, StartRec, true), frames);
  }

  /** Every walking span ends no later than `t`. */
  predicate EndsBy(events: seq<AudioEvent>, t: int)
  {
    forall i :: 0 <= i < |events| && events[i].Walking? ==> events[i].at + events[i].durationMs <= t
  }

  /** The walking spans are disjoint and in time order. */
  predicate SpansInOrder(events: seq<AudioEvent>)
  {
    forall i, j :: 0 <= i < j < |events| && events[i].Walking? && events[j].Walking? ==>
      events[i].at + events[i].durationMs <= events[j].at
  }

  /** What holds between frames while the loop runs, at frame time `t`: the closed spans are
      in order and over by `t`, and a span still open began after all of them, by `t`. */
  predicate Tidy(r: Rec, t: int)
  {
    && SpansInOrder(r.events)
    && EndsBy(r.events, t)
    && (r.walkingStart.Some? ==> r.walkingStart.value <= t && EndsBy(r.events, r.walkingStart.value))
  }

  lemma AppendSpan(events: seq<AudioEvent>, e: AudioEvent, t: int)
    requires SpansInOrder(events) && EndsBy(events, e.at) && e.Walking? && 0 <= e.durationMs && e.at + e.durationMs <= t
    ensures SpansInOrder(events + [e]) && EndsBy(events + [e], t)
  {
  }

  lemma AppendOther(events: seq<AudioEvent>, more: seq<AudioEvent>, t: int)
    requires SpansInOrder(events) && EndsBy(events, t)
    requires forall i :: 0 <= i < |more| ==> !more[i].Walking?
    ensures SpansInOrder(events + more) && EndsBy(events + more, t)
  {
  }

  lemma TidyPhase(r: Rec, p: Phase, now: int)
    requires Tidy(r, now)
    ensures Tidy(RecordPhase(r, p, now), now)
  {
    if r.lastPhase != Some(p) {
      var e := OnPhase(p, now, r.walkingStart, r.frameCount);
      var closed := r.events + CloseSpan(r.walkingStart, now);
      if Truthy(r.walkingStart) {
        AppendSpan(r.events, Walking(r.walkingStart.value, now - r.walkingStart.value), now);
      }
      assert SpansInOrder(closed) && EndsBy(closed, now);
      match p
      case Collision =>
        AppendOther(closed, [Collide(now), Dialogue(now, WatchItFirstFile), Dialogue(now, WatchItSecondFile)], now);
        assert r.events + e.added == closed + [Collide(now), Dialogue(now, WatchItFirstFile), Dialogue(now, WatchItSecondFile)];
      case FinalDialogue1 =>
        AppendOther(closed, [Dialogue(now, WorkFile)], now);
        assert r.events + e.added == closed + [Dialogue(now, WorkFile)];
      case CollisionLoop =>
        assert r.events + e.added == closed;
      case _ =>
        AppendOther(r.events, e.added, now);
    }
  }

  lemma TidyFrame(k: Setup, s: Session, f: Frame)
    requires WellFormed(k) && Tidy(s.rec, f.now)
    ensures var t := ExportFrame(k, s, f);
            SpansInOrder(t.rec.events) && EndsBy(t.rec.events, f.now) && (t.running ==> Tidy(t.rec, f.now))
  {
    TidyPhase(s.rec, s.ctrl.phase, f.now);
    var r1 := RecordPhase(s.rec, s.ctrl.phase, f.now);
    var r2 := if Overlapping(s.ctrl) then r1.(events := r1.events + [Collide(f.now)]) else r1;
    if Overlapping(s.ctrl) {
      AppendOther(r1.events, [Collide(f.now)], f.now);
      if r1.walkingStart.Some? {
        AppendOther(r1.events, [Collide(f.now)], r1.walkingStart.value);
      }
    }
    assert Tidy(r2, f.now);
    var c := Step(k, s.ctrl, f.now, f.env).ctrl;
    if Finishing(c, f.now) && Truthy(r2.walkingStart) {
      AppendSpan(r2.events, Walking(r2.walkingStart.value, f.now - r2.walkingStart.value), f.now);
    }
  }

  lemma TidyLater(r: Rec, t: int, u: int)
    requires Tidy(r, t) && t <= u
    ensures Tidy(r, u)
  {
  }

  /** With frame times that never go back, the walking spans the export records are disjoint
      and follow each other in time. That each opened span is closed exactly once is
      `ExactlyOnce`. */
  lemma {:induction false} SpansDisjoint(k: Setup, s: Session, frames: seq<Frame>)
    requires WellFormed(k) && Monotone(frames) && SpansInOrder(s.rec.events)
    requires s.running && frames != [] ==> Tidy(s.rec, frames[0].now)
    ensures SpansInOrder(Export(k, s, frames).rec.events)
    decreases |frames|
  {
    if s.running && frames != [] {
      TidyFrame(k, s, frames[0]);
      var t := ExportFrame(k, s, frames[0]);
      if t.running && |frames| > 1 {
        TidyLater(t.rec, frames[0].now, frames[1].now);
      }
      SpansDisjoint(k, t, frames[1..]);
    }
  }

  lemma SpansDisjointFromStart(k: Setup, c: Ctrl, frames: seq<Frame>)
    requires WellFormed(k) && Monotone(frames)
    ensures SpansInOrder(Export(k, Session(c, StartRec, true), frames).rec.events)
  {
    SpansDisjoint(k, Session(c, StartRec, true), frames);
  }

  // ----- each opened span is closed exactly once -----

  /** The start times of the walking spans in an event list, in order. */
  function Starts(events: seq<AudioEvent>): seq<int>
  {
    if events == [] then []
    else Starts(events[..|events| - 1]) + (if events[|events| - 1].Walking? then [events[|events| - 1].at] else [])
  }

  lemma {:induction false} StartsAppend(a: seq<AudioEvent>, b: seq<AudioEvent>)
    ensures Starts(a + b) == Starts(a) + Starts(b)
    decreases |b|
  {
    if b != [] {
      assert (a + b)[..|a + b| - 1] == a + b[..|b| - 1];
      StartsAppend(a, b[..|b| - 1]);
    } else {
      assert a + b == a;
    }
  }

  lemma {:induction false} StartsOfOthers(events: seq<AudioEvent>)
    requires forall i :: 0 <= i < |events| ==> !events[i].Walking?
    ensures Starts(events) == []
    decreases |events|
  {
    if events != [] {
      StartsOfOthers(events[..|events| - 1]);
    }
  }

  /** The span held in `walking_start_time`, if `if walking_start_time:` would close it. */
  function Held(span: Option<int>): (o: seq<int>)
    ensures |o| <= 1 && (o != [] <==> Truthy(span))
  {
    if Truthy(span) then [span.value] else []
  }

  lemma ClosingHeld(span: Option<int>, now: int)
    ensures Starts(CloseSpan(span, now)) == Held(span)
  {
    if Truthy(span) {
      assert CloseSpan(span, now)[..0] == [];
    }
  }

  /** The phases whose entry sets `walking_start_time`. */
  predicate Opening(p: Phase)
  {
    p == WalkingIn || p == BumpSequence || p == CollisionLoop || p == WalkingOut
  }

  /** The phases in which a span may still be open. */
  predicate SpanPhase(p: Phase)
  {
    Opening(p) || p == Finished
  }

  /** What holds of the recorder and the animation between frames of a run that began from
      a fresh recording: before the first frame no span is open; the animation is in the
      last phase seen or the one after it; and an open span belongs to a phase that opened
      one (or to the finished phase that follows the walk-out). */
  predicate SpanInv(s: Session)
  {
    && (s.rec.lastPhase.None? ==> s.rec.walkingStart.None?)
    && (s.rec.lastPhase.Some? ==> s.ctrl.phase == s.rec.lastPhase.value || s.ctrl.phase == s.rec.lastPhase.value.Next())
    && (Truthy(s.rec.walkingStart) ==> s.rec.lastPhase.Some? && SpanPhase(s.rec.lastPhase.value))
  }

  /** The span the frame opens on entering a phase, at a non-zero time, if any. */
  function OpenedIn(s: Session, now: int): (o: seq<int>)
    ensures |o| <= 1 && forall i :: 0 <= i < |o| ==> o[i] == now && now != 0
  {
    if s.rec.lastPhase != Some(s.ctrl.phase) && Opening(s.ctrl.phase) && now != 0 then [now] else []
  }

  /** A held span is never overwritten: the phase entered next is one that closes it (the
      collision, the collision loop, the first final line) or the finished phase, never the
      walk-in, the bump sequence or the walk-out. */
  lemma NoSpanOverwritten(s: Session)
    requires SpanInv(s)
    requires s.rec.lastPhase != Some(s.ctrl.phase) && Truthy(s.rec.walkingStart)
    ensures var p := s.ctrl.phase;
            p == Collision || p == CollisionLoop || p == FinalDialogue1 || p == Finished
  {
  }

  /** Entering a phase that closes the held span records it and holds the new span, if any. */
  lemma ClosingEntryLedger(p: Phase, now: int, span: Option<int>, frameCount: nat)
    requires p == Collision || p == CollisionLoop || p == FinalDialogue1
    ensures var e := OnPhase(p, now, span, frameCount);
            && Starts(e.added) == Held(span)
            && Held(e.span) == (if p == CollisionLoop && now != 0 then [now] else [])
  {
    ClosingHeld(span, now);
    if p == Collision {
      var rest := [Collide(now), Dialogue(now, WatchItFirstFile), Dialogue(now, WatchItSecondFile)];
      StartsAppend(CloseSpan(span, now), rest);
      StartsOfOthers(rest);
    } else if p == FinalDialogue1 {
      StartsAppend(CloseSpan(span, now), [Dialogue(now, WorkFile)]);
      StartsOfOthers([Dialogue(now, WorkFile)]);
    }
  }

  /** Entering any other phase records no span; the walk-in, the bump sequence and the
      walk-out hold a new one, the rest keep the held span. */
  lemma QuietEntryLedger(p: Phase, now: int, span: Option<int>, frameCount: nat)
    requires p != Collision && p != CollisionLoop && p != FinalDialogue1
    ensures var e := OnPhase(p, now, span, frameCount);
            && Starts(e.added) == []
            && e.span == (if Opening(p) then Some(now) else span)
  {
    StartsOfOthers(OnPhase(p, now, span, frameCount).added);
  }

  /** The phase-change step closes exactly the span it replaces: the spans closed so far
      and the one held open grow by the span the step opens, if any. */
  lemma PhaseLedger(r: Rec, p: Phase, now: int)
    requires r.lastPhase != Some(p) && Truthy(r.walkingStart) ==>
               p == Collision || p == CollisionLoop || p == FinalDialogue1 || p == Finished
    ensures var r1 := RecordPhase(r, p, now);
            Starts(r1.events) + Held(r1.walkingStart)
            == Starts(r.events) + Held(r.walkingStart) + (if r.lastPhase != Some(p) && Opening(p) && now != 0 then [now] else [])
  {
    if r.lastPhase != Some(p) {
      var e := OnPhase(p, now, r.walkingStart, r.frameCount);
      var started: seq<int> := if Opening(p) && now != 0 then [now] else [];
      if p == Collision || p == CollisionLoop || p == FinalDialogue1 {
        ClosingEntryLedger(p, now, r.walkingStart, r.frameCount);
      } else {
        QuietEntryLedger(p, now, r.walkingStart, r.frameCount);
      }
      assert Starts(e.added) + Held(e.span) == Held(r.walkingStart) + started;
      LedgerStep(r.events, e.added, Held(r.walkingStart), Held(e.span), started);
    }
  }

  lemma LedgerStep(events: seq<AudioEvent>, added: seq<AudioEvent>, before: seq<int>, after: seq<int>, started: seq<int>)
    requires Starts(added) + after == before + started
    ensures Starts(events + added) + after == Starts(events) + before + started
  {
    StartsAppend(events, added);
    var x := Starts(events);
    assert x + Starts(added) + after == x + (Starts(added) + after);
    assert x + (before + started) == x + before + started;
  }

  /** After the phase-change step a held span belongs to the phase just seen, which is one
      that opens a span or the finished phase. */
  lemma PhaseKeepsSpanPhase(s: Session, now: int)
    requires SpanInv(s)
    ensures Truthy(RecordPhase(s.rec, s.ctrl.phase, now).walkingStart) ==> SpanPhase(s.ctrl.phase)
  {
    var r := s.rec;
    var p := s.ctrl.phase;
    if r.lastPhase != Some(p) && Truthy(r.walkingStart) {
      NoSpanOverwritten(s);
    }
  }

  /** The recorder's part of a frame: the phase-change step, then a collision at `now` for
      an overlap, then, on the frame that finishes the run, the held span closed at `now`. */
  lemma AroundShape(s: Session, f: Frame, c: Ctrl)
    ensures var r1 := RecordPhase(s.rec, s.ctrl.phase, f.now);
            var t := RecordAround(s, f, c);
            && t.ctrl == c && t.rec.lastPhase == Some(s.ctrl.phase)
            && t.rec.walkingStart == r1.walkingStart
            && t.rec.events == r1.events + (if Overlapping(s.ctrl) then [Collide(f.now)] else [])
                               + (if Finishing(c, f.now) then CloseSpan(r1.walkingStart, f.now) else [])
  {
    var r1 := RecordPhase(s.rec, s.ctrl.phase, f.now);
    assert r1.lastPhase == Some(s.ctrl.phase);
    assert r1.events + [] == r1.events;
  }

  /** After the phase-change step a frame records no span but the held one, and that only
      when it finishes the run. */
  lemma TailLedger(events: seq<AudioEvent>, span: Option<int>, now: int, hit: bool, done: bool)
    ensures Starts(events + (if hit then [Collide(now)] else []) + (if done then CloseSpan(span, now) else []))
            + (if done then [] else Held(span))
            == Starts(events) + Held(span)
  {
    var hits: seq<AudioEvent> := if hit then [Collide(now)] else [];
    StartsAppend(events, hits);
    StartsOfOthers(hits);
    assert Starts(events + hits) == Starts(events);
    if done {
      StartsAppend(events + hits, CloseSpan(span, now));
      ClosingHeld(span, now);
    } else {
      assert events + hits + [] == events + hits;
    }
  }

  /** The recorder's part of a frame keeps `SpanInv` and the ledger when the update moves
      the animation at most one phase on: the spans closed and the one held open grow by
      the span the frame opens; on the frame that finishes the run the open span is closed
      too. */
  lemma RecordLedger(s: Session, f: Frame, c: Ctrl)
    requires SpanInv(s)
    requires c.phase == s.ctrl.phase || c.phase == s.ctrl.phase.Next()
    ensures var t := RecordAround(s, f, c);
            && SpanInv(t)
            && Starts(t.rec.events) + (if Finishing(c, f.now) then [] else Held(t.rec.walkingStart))
               == Starts(s.rec.events) + Held(s.rec.walkingStart) + OpenedIn(s, f.now)
  {
    if s.rec.lastPhase != Some(s.ctrl.phase) && Truthy(s.rec.walkingStart) {
      NoSpanOverwritten(s);
    }
    PhaseLedger(s.rec, s.ctrl.phase, f.now);
    PhaseKeepsSpanPhase(s, f.now);
    AroundShape(s, f, c);
    var r1 := RecordPhase(s.rec, s.ctrl.phase, f.now);
    TailLedger(r1.events, r1.walkingStart, f.now, Overlapping(s.ctrl), Finishing(c, f.now));
  }

  /** One frame keeps `SpanInv` and the ledger of `RecordLedger`. */
  lemma FrameLedger(k: Setup, s: Session, f: Frame)
    requires WellFormed(k) && SpanInv(s)
    ensures var t := ExportFrame(k, s, f);
            && SpanInv(t)
            && Starts(t.rec.events) + (if Finishing(t.ctrl, f.now) then [] else Held(t.rec.walkingStart))
               == Starts(s.rec.events) + Held(s.rec.walkingStart) + OpenedIn(s, f.now)
  {
    StepMovesAtMostOnePhase(k, s.ctrl, f.now, f.env);
    RecordLedger(s, f, Step(k, s.ctrl, f.now, f.env).ctrl);
  }

  /** The start times of the spans the loop opens over `frames`, in order. */
  function OpenedAlong(k: Setup, s: Session, frames: seq<Frame>): seq<int>
    requires WellFormed(k)
    decreases |frames|
  {
    if !s.running || frames == [] then []
    else OpenedIn(s, frames[0].now) + OpenedAlong(k, ExportFrame(k, s, frames[0]), frames[1..])
  }

  /** The span still open and unrecorded when the loop ends: none when it ends because the
      animation has been finished for a second, the held span when QUIT or the end of the
      frames stops it. */
  function LeftOpen(k: Setup, s: Session, frames: seq<Frame>): (o: seq<int>)
    requires WellFormed(k)
    ensures |o| <= 1
    ensures o == [] || o == Held(Export(k, s, frames).rec.walkingStart)
    decreases |frames|
  {
    if !s.running || frames == [] then Held(s.rec.walkingStart)
    else
      var t := ExportFrame(k, s, frames[0]);
      if Finishing(t.ctrl, frames[0].now) then [] else LeftOpen(k, t, frames[1..])
  }

  /** Every walking span the loop opens is recorded exactly once: the starts of the recorded
      spans, followed by the span left open, are the starts of the spans opened, in order. */
  lemma {:induction false} ExactlyOnce(k: Setup, s: Session, frames: seq<Frame>)
    requires WellFormed(k) && SpanInv(s)
    ensures Starts(Export(k, s, frames).rec.events) + LeftOpen(k, s, frames)
            == Starts(s.rec.events) + Held(s.rec.walkingStart) + OpenedAlong(k, s, frames)
    decreases |frames|
  {
    if s.running && frames != [] {
      var t := ExportFrame(k, s, frames[0]);
      var here := OpenedIn(s, frames[0].now);
      var later := OpenedAlong(k, t, frames[1..]);
      FrameLedger(k, s, frames[0]);
      assert OpenedAlong(k, s, frames) == here + later;
      assert Export(k, s, frames) == Export(k, t, frames[1..]);
      if Finishing(t.ctrl, frames[0].now) {
        assert !t.running && later == [] && LeftOpen(k, s, frames) == [];
        assert Starts(t.rec.events) + [] == Starts(s.rec.events) + Held(s.rec.walkingStart) + here;
      } else {
        assert LeftOpen(k, s, frames) == LeftOpen(k, t, frames[1..]);
        ExactlyOnce(k, t, frames[1..]);
        var held := Starts(t.rec.events) + Held(t.rec.walkingStart);
        assert held == Starts(s.rec.events) + Held(s.rec.walkingStart) + here;
        assert held + later == Starts(s.rec.events) + Held(s.rec.walkingStart) + (here + later);
      }
    }
  }

  /** Frame times strictly increase. */
  predicate Strict(frames: seq<Frame>)
  {
    forall i, j :: 0 <= i < j < |frames| ==> frames[i].now < frames[j].now
  }

  /** A list of times that strictly increases. */
  predicate Increasing(xs: seq<int>)
  {
    forall i, j :: 0 <= i < j < |xs| ==> xs[i] < xs[j]
  }

  /** The spans are opened at non-zero frame times no earlier than the first frame, so with
      strictly increasing frame times no two are opened at the same time. */
  lemma {:induction false} OpenedAlongTimes(k: Setup, s: Session, frames: seq<Frame>)
    requires WellFormed(k) && Monotone(frames)
    ensures var o := OpenedAlong(k, s, frames);
            && (forall i :: 0 <= i < |o| ==> o[i] != 0 && frames[0].now <= o[i])
            && (Strict(frames) ==> Increasing(o))
    decreases |frames|
  {
    if s.running && frames != [] {
      var t := ExportFrame(k, s, frames[0]);
      var here := OpenedIn(s, frames[0].now);
      var rest := OpenedAlong(k, t, frames[1..]);
      assert OpenedAlong(k, s, frames) == here + rest;
      assert Monotone(frames[1..]);
      OpenedAlongTimes(k, t, frames[1..]);
      if |frames| == 1 {
        assert rest == [];
      } else {
        assert frames[1..][0] == frames[1];
        assert frames[0].now <= frames[1].now;
        if Strict(frames) {
          assert Strict(frames[1..]);
          assert frames[0].now < frames[1].now;
        }
      }
    }
  }

  /** From a fresh recording: every span opened is recorded exactly once, except at most
      one still open when QUIT or the end of the frames stops the loop; none is left open
      when the loop stops because the animation is done. With strictly increasing frame
      times the recorded spans start at distinct non-zero times. */
  lemma ExactlyOnceFromStart(k: Setup, c: Ctrl, frames: seq<Frame>)
    requires WellFormed(k)
    ensures var s := Session(c, StartRec, true);
            var starts := Starts(Export(k, s, frames).rec.events);
            && starts + LeftOpen(k, s, frames) == OpenedAlong(k, s, frames)
            && (Monotone(frames) ==> forall i :: 0 <= i < |starts| ==> starts[i] != 0)
            && (Strict(frames) ==> Increasing(starts))
  {
    var s := Session(c, StartRec, true);
    var starts := Starts(Export(k, s, frames).rec.events);
    var o := OpenedAlong(k, s, frames);
    ExactlyOnce(k, s, frames);
    assert Starts(s.rec.events) + Held(s.rec.walkingStart) == [];
    assert starts + LeftOpen(k, s, frames) == o;
    if Monotone(frames) {
      OpenedAlongTimes(k, s, frames);
      PrefixKeeps(starts, LeftOpen(k, s, frames), o);
    } else if Strict(frames) {
      assert Monotone(frames);
    }
  }

  /** What holds of every time in a list holds of every time in a prefix of it, and a
      prefix of a strictly increasing list increases strictly. */
  lemma PrefixKeeps(starts: seq<int>, left: seq<int>, o: seq<int>)
    requires starts + left == o
    ensures (forall i :: 0 <= i < |o| ==> o[i] != 0) ==> forall i :: 0 <= i < |starts| ==> starts[i] != 0
    ensures Increasing(o) ==> Increasing(starts)
  {
    assert forall i :: 0 <= i < |starts| ==> starts[i] == o[i];
  }

  /** `frame_count` counts the frames the loop went through: all of them when it is still
      running at the end, fewer when it stopped early. */
  lemma {:induction false} FramesCounted(k: Setup, s: Session, frames: seq<Frame>)
    requires WellFormed(k)
    ensures var t := Export(k, s, frames);
            && s.rec.frameCount <= t.rec.frameCount <= s.rec.frameCount + |frames|
            && (s.running && t.running ==> t.rec.frameCount == s.rec.frameCount + |frames|)
    decreases |frames|
  {
    if s.running && frames != [] {
      FramesCounted(k, ExportFrame(k, s, frames[0]), frames[1..]);
    }
  }

  // ----- the loop itself -----

  /** The `if current_phase != last_phase:` chain for the phase just entered. */
  method RecordPhaseChange(currentPhase: Phase, currentTime: int, walkingStartTime: Option<int>, frameCount: nat)
    returns (span: Option<int>, added: seq<AudioEvent>)
    ensures Entry(span, added) == OnPhase(currentPhase, currentTime, walkingStartTime, frameCount)
  {
    span, added := walkingStartTime, [];
    if currentPhase == CatRun && frameCount > 0 {
      added := added + [Meow(currentTime + MeowOffsetMs)];
    } else if currentPhase == WalkingIn {
      span := Some(currentTime);
    } else if currentPhase == Collision {
      if Truthy(span) {
        added := added + [Walking(span.value, currentTime - span.value)];
        span := None;
      }
      added := added + [Collide(currentTime)];
      added := added + [Dialogue(currentTime, WatchItFirstFile)];
      added := added + [Dialogue(currentTime, WatchItSecondFile)];
    } else if currentPhase == KiddingDialogue {
      added := added + [Dialogue(currentTime, KiddingFile)];
    } else if currentPhase == HeyYaDialogue {
      added := added + [Dialogue(currentTime, HeyYaFile)];
    } else if currentPhase == BumpSequence {
      span := Some(currentTime);
    } else if currentPhase == CollisionLoop {
      if Truthy(span) {
        added := added + [Walking(span.value, currentTime - span.value)];
      }
      span := Some(currentTime);
    } else if currentPhase == FinalDialogue1 {
      if Truthy(span) {
        added := added + [Walking(span.value, currentTime - span.value)];
        span := None;
      }
      added := added + [Dialogue(currentTime, WorkFile)];
    } else if currentPhase == FinalDialogue2 {
      added := added + [Dialogue(currentTime, DontCareFile)];
    } else if currentPhase == WalkingOut {
      span := Some(currentTime);
    }
  }

  /** The part of one pass before `animation.update`: the phase-change events and the
      overlap check on the rectangles as they are before the update. */
  method RecordBeforeUpdate(animation: AnimationController, now: int, r: Rec) returns (r2: Rec)
    requires animation.Valid()
    ensures var r1 := RecordPhase(r, animation.phase, now);
            r2 == if Overlapping(animation.Snapshot()) then r1.(events := r1.events + [Collide(now)]) else r1
  {
    r2 := r;
    var currentPhase := animation.phase;
    if r.lastPhase != Some(currentPhase) {
      var span, added := RecordPhaseChange(currentPhase, now, r.walkingStart, r.frameCount);
      r2 := r2.(walkingStart := span, events := r2.events + added, lastPhase := Some(currentPhase));
    }
    if currentPhase == BumpSequence || currentPhase == CollisionLoop {
      if Collides(animation.char1.GetRect(), animation.char2.GetRect()) {
        r2 := r2.(events := r2.events + [Collide(now)]);
      }
    }
  }

  /** One pass of `while running:` over the frame's inputs. */
  method RecordFrame(animation: AnimationController, frame: Frame, r: Rec) returns (r3: Rec, running: bool)
    requires animation.Valid()
    modifies animation, animation.char1, animation.char2, animation.audio
    ensures Session(animation.Snapshot(), r3, running)
         == ExportFrame(animation.Setup(), Session(old(animation.Snapshot()), r, true), frame)
  {
    running := !frame.quit;
    var currentTime := frame.now;
    var r2 := RecordBeforeUpdate(animation, currentTime, r);
    var calls := animation.Update(currentTime, frame.env);
    var done;
    r3, done := RecordFinish(animation, currentTime, r2);
    if done {
      running := false;
    }
    r3 := r3.(frameCount := r3.frameCount + 1);
  }

  /** The check after `animation.update`: once the animation has been finished for more than
      a second, close the open span and stop. */
  method RecordFinish(animation: AnimationController, now: int, r: Rec) returns (r3: Rec, done: bool)
    ensures done == Finishing(animation.Snapshot(), now)
    ensures r3 == if done then r.(events := r.events + CloseSpan(r.walkingStart, now)) else r
  {
    r3, done := r, false;
    if animation.phase == Finished {
      if Truthy(animation.finishedTime) && now - animation.finishedTime.value > FinishHoldMs {
        if Truthy(r3.walkingStart) {
          r3 := r3.(events := r3.events + [Walking(r3.walkingStart.value, now - r3.walkingStart.value)]);
        }
        done := true;
      }
    }
  }

  /** The recording loop of `export_tiktok_video`, driving `animation` over `frames` until
      `running` is false or the frames run out. */
  method RecordExport(animation: AnimationController, frames: seq<Frame>)
    returns (audioEvents: seq<AudioEvent>, frameCount: nat, running: bool)
    requires animation.Valid()
    modifies animation, animation.char1, animation.char2, animation.audio
    ensures var s := Export(animation.Setup(), Session(old(animation.Snapshot()), StartRec, true), frames);
            && animation.Snapshot() == s.ctrl
            && audioEvents == s.rec.events && frameCount == s.rec.frameCount && running == s.running
  {
    ghost var k := animation.Setup();
    ghost var whole := Export(k, Session(animation.Snapshot(), StartRec, true), frames);
    var r := StartRec;
    running := true;
    var i := 0;
    while running && i < |frames|
      invariant 0 <= i <= |frames|
      invariant animation.Valid() && animation.Setup() == k
      invariant Export(k, Session(animation.Snapshot(), r, running), frames[i..]) == whole
    {
      assert frames[i..][1..] == frames[i + 1..];
      r, running := RecordFrame(animation, frames[i], r);
      i := i + 1;
    }
    audioEvents, frameCount := r.events, r.frameCount;
  }
}
