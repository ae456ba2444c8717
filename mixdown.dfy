/** `create_audio_track` of export_tiktok_final.py: each recorded event becomes one clip placed
    on the timeline at the event's time, a walking span becomes copies of the walking clip
    joined and cut to the span's length, an event whose file cannot be used is skipped, and
    the track exists only if at least one clip was placed. Clip lengths are whole
    milliseconds, looked up in a table of the files that can be opened. */
module Mixdown {
  import opened Opt
  import opened Config
  import opened Recorder

  const MeowFile: string := "assets/00_00_meow.wav"
  const CollideFile: string := "assets/06_collide.wav"
  const WalkingFile: string := "assets/walking.wav"

  /** One clip on the timeline: the file it reads, where it starts, how long it lasts, and
      how many copies of the file were joined to make it. */
  datatype Placement = Placement(file: string, startMs: int, lengthMs: int, loops: nat)

  /** The composite clip and the duration set on it, in seconds. */
  datatype Track = Track(clips: seq<Placement>, durationS: real)

  /** `int(duration_s / walking_clip.duration) + 1` for a span of `d` ms and a clip of `len` ms. */
  function LoopsNeeded(d: nat, len: nat): nat
    requires len > 0
  {
    d / len + 1
  }

  /** The loops joined are always enough to cut a span of `d` from, and one fewer would not be. */
  lemma LoopsCover(d: nat, len: nat)
    requires len > 0
    ensures LoopsNeeded(d, len) * len > d
    ensures (LoopsNeeded(d, len) - 1) * len <= d
  {
    var q, r := d / len, d % len;
    assert d == q * len + r && 0 <= r < len;
    assert LoopsNeeded(d, len) * len == q * len + len;
  }

  /** The whole file `file` placed at `start`, when it can be opened. */
  function Whole(file: string, start: int, assets: map<string, nat>): Option<Placement>
  {
    if file in assets then Some(Placement(file, start, assets[file], 1)) else None
  }

  /** The clip one event contributes, or `None` when adding it raises: a file that cannot be
      opened, a walking clip of length zero (a division by zero), or a span of negative
      length. */
  function Place(e: AudioEvent, assets: map<string, nat>): Option<Placement>
  {
    match e
    case Meow(at) => Whole(MeowFile, at, assets)
    case Collide(at) => Whole(CollideFile, at, assets)
    case Dialogue(at, file) => Whole(file, at, assets)
    case Walking(at, d) =>
      if WalkingFile in assets && assets[WalkingFile] > 0 && d >= 0
      then Some(Placement(WalkingFile, at, d, LoopsNeeded(d, assets[WalkingFile])))
      else None
  }

  function Clip(p: Option<Placement>): seq<Placement>
  {
    if p.Some? then [p.value] else []
  }

  /** `audio_clips` after the loop has gone over `events`. */
  function Placements(events: seq<AudioEvent>, assets: map<string, nat>): seq<Placement>
  {
    if events == [] then []
    else Placements(events[..|events| - 1], assets) + Clip(Place(events[|events| - 1], assets))
  }

  /** A placed event starts its clip at the event's own time; a walking clip covers exactly
      `[start, start + d)`, cut from enough copies of the walking file; any other clip is the
      whole file, once. */
  lemma PlaceFacts(e: AudioEvent, assets: map<string, nat>)
    ensures Place(e, assets).Some? ==> Place(e, assets).value.startMs == e.at
    ensures e.Walking? && Place(e, assets).Some? ==>
              var p := Place(e, assets).value;
              && p.file == WalkingFile && p.startMs + p.lengthMs == e.at + e.durationMs
              && p.loops * assets[WalkingFile] > p.lengthMs >= 0
    ensures !e.Walking? && Place(e, assets).Some? ==>
              var p := Place(e, assets).value;
              p.file in assets && p.lengthMs == assets[p.file] && p.loops == 1
    ensures e.Walking? ==>
              (Place(e, assets).Some? <==> WalkingFile in assets && assets[WalkingFile] > 0 && e.durationMs >= 0)
  {
    if e.Walking? && Place(e, assets).Some? {
      LoopsCover(e.durationMs, assets[WalkingFile]);
    }
  }

  /** The clips of two runs of events joined are the clips of each, in order: so an event
      that fails contributes nothing and those after it are still placed. */
  lemma {:induction false} PlacementsAppend(a: seq<AudioEvent>, b: seq<AudioEvent>, assets: map<string, nat>)
    ensures Placements(a + b, assets) == Placements(a, assets) + Placements(b, assets)
    decreases |b|
  {
    if b == [] {
      assert a + b == a;
    } else {
      var b' := b[..|b| - 1];
      assert (a + b)[..|a + b| - 1] == a + b';
      assert (a + b)[|a + b| - 1] == b[|b| - 1];
      PlacementsAppend(a, b', assets);
    }
  }

  /** Skipping a failing event leaves the other clips as they are. */
  lemma FailureIsSkipped(a: seq<AudioEvent>, e: AudioEvent, b: seq<AudioEvent>, assets: map<string, nat>)
    requires Place(e, assets).None?
    ensures Placements(a + [e] + b, assets) == Placements(a + b, assets)
  {
    PlacementsAppend(a + [e], b, assets);
    PlacementsAppend(a, [e], assets);
    PlacementsAppend(a, b, assets);
    assert Placements([e], assets) == Placements([], assets) + Clip(Place(e, assets));
  }

  /** Every clip comes from one of the events, and every event that can be placed is. */
  lemma {:induction false} PlacementsFromEvents(events: seq<AudioEvent>, assets: map<string, nat>)
    ensures forall p :: p in Placements(events, assets) ==>
              exists i :: 0 <= i < |events| && Place(events[i], assets) == Some(p)
    ensures forall i :: 0 <= i < |events| && Place(events[i], assets).Some? ==>
              Place(events[i], assets).value in Placements(events, assets)
    decreases |events|
  {
    if events != [] {
      var n := |events| - 1;
      PlacementsFromEvents(events[..n], assets);
      forall p | p in Placements(events, assets)
        ensures exists i :: 0 <= i < |events| && Place(events[i], assets) == Some(p)
      {
        if p in Placements(events[..n], assets) {
          var i :| 0 <= i < n && Place(events[..n][i], assets) == Some(p);
          assert events[..n][i] == events[i];
        } else {
          assert Place(events[n], assets) == Some(p);
        }
      }
      forall i | 0 <= i < |events| && Place(events[i], assets).Some?
        ensures Place(events[i], assets).value in Placements(events, assets)
      {
        if i < n {
          assert events[..n][i] == events[i];
        }
      }
    }
  }

  /** No clip is placed exactly when every event fails. */
  lemma NoClipsIffAllFail(events: seq<AudioEvent>, assets: map<string, nat>)
    ensures Placements(events, assets) == [] <==> forall i :: 0 <= i < |events| ==> Place(events[i], assets).None?
  {
    PlacementsFromEvents(events, assets);
    if Placements(events, assets) != [] {
      assert Placements(events, assets)[0] in Placements(events, assets);
    }
  }

  /** `total_duration_s = frame_count / FPS`. */
  function TotalDurationS(frameCount: nat): (s: real)
    ensures s >= 0.0 && s * (Fps as real) == frameCount as real
  {
    frameCount as real / Fps as real
  }

  /** The loop over the events and the composite: `None` where the source returns False. */
  method CreateAudioTrack(events: seq<AudioEvent>, totalDurationS: real, assets: map<string, nat>)
    returns (track: Option<Track>)
    ensures track.Some? <==> exists i :: 0 <= i < |events| && Place(events[i], assets).Some?
    ensures track.Some? ==> track.value == Track(Placements(events, assets), totalDurationS)
  {
    var clips: seq<Placement> := [];
    for i := 0 to |events|
      invariant clips == Placements(events[..i], assets)
    {
      var event := events[i];
      match event {
        case Meow(at) =>
          if MeowFile in assets {
            clips := clips + [Placement(MeowFile, at, assets[MeowFile], 1)];
          }
        case Collide(at) =>
          if CollideFile in assets {
            clips := clips + [Placement(CollideFile, at, assets[CollideFile], 1)];
          }
        case Dialogue(at, file) =>
          if file in assets {
            clips := clips + [Placement(file, at, assets[file], 1)];
          }
        case Walking(at, d) =>
          if WalkingFile in assets && assets[WalkingFile] > 0 && d >= 0 {
            var loopsNeeded := d / assets[WalkingFile] + 1;
            clips := clips + [Placement(WalkingFile, at, d, loopsNeeded)];
          }
      }
      assert events[..i + 1][..i] == events[..i];
    }
    assert events[..|events|] == events;
    NoClipsIffAllFail(events, assets);
    if clips != [] {
      track := Some(Track(clips, totalDurationS));
    } else {
      track := None;
    }
  }
}
