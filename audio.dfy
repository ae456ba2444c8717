/** The playback bookkeeping of `AudioManager` in src/audio.py: the single "current sound"
    slot that play, loop and stop update, the "is this sound playing" query, and the rule
    by which `preload_dialogue` turns a dialogue script into clips and durations.
    Sounds are opaque: a sound is known by its identity and its length. Loading a file is
    a lookup in `disk`, a map from path to the sound that loads from it (a path that is
    absent fails to load). */
module Audio {
  import opened Opt

  /** A clip length in seconds, as `Sound.get_length()` reports it. */
  type Seconds = r: real | r >= 0.0

  /** A loaded `pygame.mixer.Sound`; two sounds are the same object when their ids agree. */
  datatype Sound = Sound(id: nat, length: Seconds)

  /** `int(sound.get_length() * 1000)`: Python truncates, which for a non-negative length is
      the floor. */
  function LengthMs(s: Sound): nat
  {
    (s.length * 1000.0).Floor
  }

  /** A dialogue entry: one clip, or the pair of clips "WATCH IT!" is spoken with. */
  datatype DialogueClip = Single(sound: Sound) | Dual(first: Sound, second: Sound)

  /** One `(text, speaker, voice)` entry of the dialogue script. */
  datatype DialogueLine = DialogueLine(text: string, speaker: string, voice: string)

  /** A call the core makes on the mixer: `sound.play()`, `sound.play(loops=-1)`, `sound.stop()`. */
  datatype SoundCall = Play(sound: Sound) | PlayLooping(sound: Sound) | Stop(sound: Sound)

  /** The manager's `current_sound` after an operation, with the mixer calls it made. */
  datatype Slot = Slot(current: Option<Sound>, calls: seq<SoundCall>)

  /** `play_sound`: a missing sound is ignored. */
  function AfterPlay(current: Option<Sound>, sound: Option<Sound>): Slot
  {
    if sound.Some? then Slot(sound, [Play(sound.value)]) else Slot(current, [])
  }

  /** `play_looping_sound`: a missing sound is ignored. */
  function AfterPlayLooping(current: Option<Sound>, sound: Option<Sound>): Slot
  {
    if sound.Some? then Slot(sound, [PlayLooping(sound.value)]) else Slot(current, [])
  }

  /** `stop_current_sound`. */
  function AfterStop(current: Option<Sound>): Slot
  {
    if current.Some? then Slot(None, [Stop(current.value)]) else Slot(current, [])
  }

  /** `is_sound_playing`, given what `sound.get_num_channels()` reports. */
  predicate IsPlaying(current: Option<Sound>, sound: Option<Sound>, channels: nat)
  {
    sound.Some? && current == sound && channels > 0
  }

  lemma PlayingNeedsIdentity(current: Option<Sound>, sound: Option<Sound>, channels: nat)
    ensures IsPlaying(current, sound, channels) ==> sound.Some? && current == sound
    ensures sound.None? || current != sound || channels == 0 ==> !IsPlaying(current, sound, channels)
  {
  }

  lemma StoppedIsSilent(current: Option<Sound>, sound: Option<Sound>, channels: nat)
    ensures AfterStop(current).current == None
    ensures !IsPlaying(AfterStop(current).current, sound, channels)
  {
  }

  lemma LoopingIsPlaying(current: Option<Sound>, sound: Sound, channels: nat)
    ensures AfterPlayLooping(current, Some(sound)).current == Some(sound)
    ensures IsPlaying(AfterPlayLooping(current, Some(sound)).current, Some(sound), channels) <==> channels > 0
  {
  }

  const WatchIt: string := "WATCH IT!"
  const WatchItFirstKey: string := "WATCH IT!_char1"
  const WatchItSecondKey: string := "WATCH IT!_char2"

  /** The table of dialogue files `preload_dialogue` consults. */
  const DialogueFiles: map<string, string> := map[
    WatchItFirstKey := "assets/01_01_watch_it.wav",
    WatchItSecondKey := "assets/01_02_watch_it.wav",
    "Just kidding, running into people is fun!" := "assets/02_01_just_kidding.wav",
    "Hey ya!" := "assets/03_02_hey_ya.wav",
    "Okay I have to go to work" := "assets/04_01_go_to_work.wav",
    "I don't care" := "assets/05_02_i_dont_care.wav"
  ]

  /** `load_dialogue_file`: a path that does not load gives `None`. */
  function LoadFile(disk: map<string, Sound>, path: string): Option<Sound>
  {
    if path in disk then Some(disk[path]) else None
  }

  function Max(a: int, b: int): int
  {
    if a < b then b else a
  }

  /** What `preload_dialogue` stores for one text: the clip and its duration in ms. */
  datatype Loaded = Loaded(clip: DialogueClip, durationMs: nat)

  /** The entry `preload_dialogue` makes for `text`, if it makes one. */
  function LoadedFor(text: string, disk: map<string, Sound>): Option<Loaded>
  {
    if text == WatchIt then
      var first := LoadFile(disk, DialogueFiles[WatchItFirstKey]);
      var second := LoadFile(disk, DialogueFiles[WatchItSecondKey]);
      if first.Some? && second.Some? then
        Some(Loaded(Dual(first.value, second.value), Max(LengthMs(first.value), LengthMs(second.value))))
      else None
    else if text in DialogueFiles then
      var sound := LoadFile(disk, DialogueFiles[text]);
      if sound.Some? then Some(Loaded(Single(sound.value), LengthMs(sound.value))) else None
    else None
  }

  /** The texts of a script. */
  function Texts(lines: seq<DialogueLine>): set<string>
  {
    set line | line in lines :: line.text
  }

  lemma LengthMsIsWholeMilliseconds(s: Sound)
    ensures LengthMs(s) as real <= s.length * 1000.0 < LengthMs(s) as real + 1.0
  {
  }

  /** "WATCH IT!" gets an entry exactly when both of its clips load; the entry is the pair,
      and its duration is the longer of the two lengths. */
  lemma WatchItNeedsBothClips(disk: map<string, Sound>)
    ensures var first := "assets/01_01_watch_it.wav";
            var second := "assets/01_02_watch_it.wav";
            && (LoadedFor(WatchIt, disk).Some? <==> first in disk && second in disk)
            && (LoadedFor(WatchIt, disk).Some? ==>
                  && LoadedFor(WatchIt, disk).value.clip == Dual(disk[first], disk[second])
                  && LoadedFor(WatchIt, disk).value.durationMs >= LengthMs(disk[first])
                  && LoadedFor(WatchIt, disk).value.durationMs >= LengthMs(disk[second])
                  && (LoadedFor(WatchIt, disk).value.durationMs == LengthMs(disk[first]) ||
                      LoadedFor(WatchIt, disk).value.durationMs == LengthMs(disk[second])))
  {
  }

  /** Every other text gets a single clip exactly when it is in the file table and its file
      loads; its duration is that clip's length in whole milliseconds. */
  lemma OtherTextsNeedTheirFile(text: string, disk: map<string, Sound>)
    requires text != WatchIt
    ensures LoadedFor(text, disk).Some? <==> text in DialogueFiles && DialogueFiles[text] in disk
    ensures LoadedFor(text, disk).Some? ==>
              LoadedFor(text, disk).value == Loaded(Single(disk[DialogueFiles[text]]), LengthMs(disk[DialogueFiles[text]]))
  {
  }

  /** Only "WATCH IT!" is ever stored as a pair of clips. */
  lemma OnlyWatchItIsDual(text: string, disk: map<string, Sound>)
    ensures LoadedFor(text, disk).Some? && LoadedFor(text, disk).value.clip.Dual? ==> text == WatchIt
  {
  }

  /** The playback part of `AudioManager`. The text-to-speech client and the synthesised
      walking sound are not modelled. */
  class AudioManager {
    var currentSound: Option<Sound>

    constructor ()
      ensures currentSound == None
    {
      currentSound := None;
    }

    method PlaySound(sound: Option<Sound>) returns (calls: seq<SoundCall>)
      modifies this
      ensures sound.None? ==> currentSound == old(currentSound) && calls == []
      ensures sound.Some? ==> currentSound == sound && calls == [Play(sound.value)]
      ensures Slot(currentSound, calls) == AfterPlay(old(currentSound), sound)
    {
      calls := [];
      if sound.Some? {
        currentSound := sound;
        calls := [Play(sound.value)];
      }
    }

    method PlayLoopingSound(sound: Option<Sound>) returns (calls: seq<SoundCall>)
      modifies this
      ensures sound.None? ==> currentSound == old(currentSound) && calls == []
      ensures sound.Some? ==> currentSound == sound && calls == [PlayLooping(sound.value)]
      ensures Slot(currentSound, calls) == AfterPlayLooping(old(currentSound), sound)
    {
      calls := [];
      if sound.Some? {
        currentSound := sound;
        calls := [PlayLooping(sound.value)];
      }
    }

    method StopCurrentSound() returns (calls: seq<SoundCall>)
      modifies this
      ensures currentSound == None
      ensures calls == if old(currentSound).Some? then [Stop(old(currentSound).value)] else []
      ensures Slot(currentSound, calls) == AfterStop(old(currentSound))
    {
      calls := [];
      if currentSound.Some? {
        calls := [Stop(currentSound.value)];
        currentSound := None;
      }
    }

    /** `channels` is what `sound.get_num_channels()` reports at the time of the query. */
    method IsSoundPlaying(sound: Option<Sound>, channels: nat) returns (playing: bool)
      ensures playing ==> sound.Some? && currentSound == sound
      ensures playing <==> IsPlaying(currentSound, sound, channels)
    {
      if sound.Some? && currentSound == sound {
        return channels > 0;
      }
      return false;
    }

    /** `preload_dialogue`: the clips and durations (in ms) for the script's texts. */
    method PreloadDialogue(dialogues: seq<DialogueLine>, disk: map<string, Sound>)
      returns (audio: map<string, DialogueClip>, durations: map<string, nat>)
      ensures audio.Keys == durations.Keys
      ensures forall text :: text in audio <==> text in Texts(dialogues) && LoadedFor(text, disk).Some?
      ensures forall text :: text in audio ==> LoadedFor(text, disk) == Some(Loaded(audio[text], durations[text]))
    {
      audio, durations := map[], map[];
      var i := 0;
      while i < |dialogues|
        invariant 0 <= i <= |dialogues|
        invariant audio.Keys == durations.Keys
        invariant forall text :: text in audio <==> text in Texts(dialogues[..i]) && LoadedFor(text, disk).Some?
        invariant forall text :: text in audio ==> LoadedFor(text, disk) == Some(Loaded(audio[text], durations[text]))
      {
        var text := dialogues[i].text;
        if text == WatchIt {
          var first := LoadFile(disk, DialogueFiles[WatchItFirstKey]);
          var second := LoadFile(disk, DialogueFiles[WatchItSecondKey]);
          if first.Some? && second.Some? {
            audio := audio[text := Dual(first.value, second.value)];
            durations := durations[text := Max(LengthMs(first.value), LengthMs(second.value))];
          }
        } else if text in DialogueFiles {
          var sound := LoadFile(disk, DialogueFiles[text]);
          if sound.Some? {
            audio := audio[text := Single(sound.value)];
            durations := durations[text := LengthMs(sound.value)];
          }
        }
        assert Texts(dialogues[..i + 1]) == Texts(dialogues[..i]) + {text} by {
          assert dialogues[..i + 1] == dialogues[..i] + [dialogues[i]];
        }
        i := i + 1;
      }
      assert dialogues[..i] == dialogues;
    }
  }
}
