/** AudioPlayer.cpp: the table of playing sounds keyed by an ever-increasing reference, the table
    of sound groups keyed by name (each owning one opened SDL audio device), and the frame cursor
    that `SoundInstance::PutSamplesSDL` advances when SDL asks a stream for more data.
    SDL is outside the model: the logical device id an open returns is a parameter, the
    stream-to-device bindings and the device opens and closes are ghost state of the player. */
module Audio {
  import opened Wrappers

  /** The handle `Play` returns. */
  type AudioRef = nat

  datatype AudioState = Playing | Paused

  /** Sound.hpp: the decoded sound. The interleaved 16-bit sample data itself is not modelled,
      only its shape. */
  datatype Sound = Sound(frameCount: nat, sampleRate: nat, channels: nat)

  /** The physical device a group plays on and its volume. */
  datatype SoundGroupSettings = SoundGroupSettings(deviceId: nat, volume: real)

  /** A group: the physical device requested, the logical device SDL opened for it, its volume. */
  datatype SoundGroup = SoundGroup(audioDeviceId: nat, logicalAudioDeviceId: nat, volume: real)

  /** SDL_OpenAudioDevice (with the logical id it returned) and SDL_CloseAudioDevice. */
  datatype DeviceCall = Open(deviceId: nat, logicalId: nat) | Close(logicalId: nat)

  /** One SDL_PutAudioStreamData call: `count` frames of the sound starting at frame `start`,
      scaled by `volume` unless that is approximately 1. */
  datatype Chunk = Chunk(start: nat, count: nat, volume: real)

  function Min(a: nat, b: nat): (r: nat)
    ensures r <= a && r <= b && (r == a || r == b)
  {
    if a < b then a else b
  }

  /** The whole frames a request of `bytes` bytes holds: two bytes per sample, `channels` samples
      per frame, rounded down. */
  function FramesIn(bytes: nat, channels: nat): nat
    requires channels > 0
  {
    bytes / 2 / channels
  }

  /** The bytes `frames` frames occupy. */
  function BytesOf(frames: nat, channels: nat): nat
  {
    frames * 2 * channels
  }

  /** The number of frames one PutSamplesSDL call for `frames` frames delivers: a looping sound
      delivers all of them, wrapping as often as needed; any other sound stops at its end. */
  function Delivered(frameCount: nat, loop: bool, position: nat, frames: nat): nat
    requires position <= frameCount
  {
    if loop && frameCount > 0 then frames else Min(frames, frameCount - position)
  }

  /** The chunks one PutSamplesSDL call hands to the stream, in order: from the cursor up to
      the end of the sound, then, for a looping sound that reached its end, the chunks of the
      call on the remaining request from frame 0. */
  function Chunks(frameCount: nat, loop: bool, position: nat, frames: nat, volume: real): seq<Chunk>
    requires position <= frameCount
    decreases frames
  {
    var put := Min(frames, frameCount - position);
    if put == 0 then []
    else if loop && position + put == frameCount then
      [Chunk(position, put, volume)] + Chunks(frameCount, loop, 0, frames - put, volume)
    else [Chunk(position, put, volume)]
  }

  /** The frame indices a sequence of chunks covers, in order. */
  function FramesOf(chunks: seq<Chunk>): seq<int>
  {
    if chunks == [] then []
    else seq(chunks[0].count, i => chunks[0].start + i) + FramesOf(chunks[1..])
  }

  /** The number of frames a sequence of chunks covers. */
  function Total(chunks: seq<Chunk>): nat
  {
    if chunks == [] then 0 else chunks[0].count + Total(chunks[1..])
  }

  lemma {:induction false} TotalCountsFrames(chunks: seq<Chunk>)
    ensures |FramesOf(chunks)| == Total(chunks)
  {
    if chunks != [] {
      TotalCountsFrames(chunks[1..]);
    }
  }

  /** The chunks of a call cover exactly the number of frames it delivers, lie inside the sound,
      and every chunk after the first starts at frame 0. */
  lemma {:induction false} ChunksDeliver(frameCount: nat, loop: bool, position: nat, frames: nat, volume: real)
    requires position <= frameCount && (loop && frameCount > 0 ==> position < frameCount)
    ensures var chunks := Chunks(frameCount, loop, position, frames, volume);
      && Total(chunks) == Delivered(frameCount, loop, position, frames)
      && (forall k | 0 <= k < |chunks| ::
            && 0 < chunks[k].count && chunks[k].start + chunks[k].count <= frameCount
            && chunks[k].start == (if k == 0 then position else 0)
            && chunks[k].volume == volume)
    decreases frames
  {
    var put := Min(frames, frameCount - position);
    if put > 0 && loop && position + put == frameCount {
      var rest := Chunks(frameCount, loop, 0, frames - put, volume);
      ChunksDeliver(frameCount, loop, 0, frames - put, volume);
      assert Chunks(frameCount, loop, position, frames, volume) == [Chunk(position, put, volume)] + rest;
      assert ([Chunk(position, put, volume)] + rest)[1..] == rest;
    }
  }

  /** The frames handed to the stream are the next `Delivered` frames of the sound after the
      cursor, in order, wrapping from the last frame to the first. */
  lemma {:induction false} ChunksAreTheNextFrames(frameCount: nat, loop: bool, position: nat, frames: nat, volume: real)
    requires position <= frameCount && (loop && frameCount > 0 ==> position < frameCount)
    requires frameCount > 0
    ensures var played := FramesOf(Chunks(frameCount, loop, position, frames, volume));
      && |played| == Delivered(frameCount, loop, position, frames)
      && forall k | 0 <= k < |played| :: played[k] == (position + k) % frameCount
    decreases frames
  {
    var chunks := Chunks(frameCount, loop, position, frames, volume);
    ChunksDeliver(frameCount, loop, position, frames, volume);
    TotalCountsFrames(chunks);
    var put := Min(frames, frameCount - position);
    if put > 0 {
      var head := seq(put, i => position + i);
      var rest := if loop && position + put == frameCount then Chunks(frameCount, loop, 0, frames - put, volume) else [];
      assert chunks == [Chunk(position, put, volume)] + rest;
      assert chunks[1..] == rest;
      assert FramesOf(chunks) == head + FramesOf(rest);
      if rest != [] {
        ChunksAreTheNextFrames(frameCount, loop, 0, frames - put, volume);
      }
      SpliceFrames(head, FramesOf(rest), position, put, frameCount);
    }
  }

  /** The run from the cursor to the end of its chunk, followed by frames that restart at 0 once
      the run reaches the end of the sound, continues the cursor modulo the sound's length. */
  lemma SpliceFrames(head: seq<int>, tail: seq<int>, position: nat, put: nat, frameCount: nat)
    requires frameCount > 0 && head == seq(put, i => position + i) && position + put <= frameCount
    requires tail != [] ==> position + put == frameCount
    requires forall j | 0 <= j < |tail| :: tail[j] == j % frameCount
    ensures forall k | 0 <= k < |head + tail| :: (head + tail)[k] == (position + k) % frameCount
  {
    forall k | 0 <= k < |head + tail|
      ensures (head + tail)[k] == (position + k) % frameCount
    {
      if k < put {
        WithinOneRound(position + k, frameCount);
      } else {
        assert position + k == k - put + frameCount;
        WrapOnce(k - put, frameCount);
      }
    }
  }

  /** A frame inside the sound is its own index. */
  lemma WithinOneRound(j: nat, frameCount: nat)
    requires j < frameCount
    ensures j % frameCount == j
  {
    DivideUniquely(j, frameCount, 0, j);
  }

  /** Going once round the sound lands on the same frame. */
  lemma WrapOnce(j: nat, frameCount: nat)
    requires frameCount > 0
    ensures (j + frameCount) % frameCount == j % frameCount
  {
    var q, r := j / frameCount, j % frameCount;
    assert j == q * frameCount + r;
    assert j + frameCount == (q + 1) * frameCount + r;
    DivideUniquely(j + frameCount, frameCount, q + 1, r);
  }

  /** Whole frames never overrun the request they were cut from, and fill it in whole frames. */
  lemma WholeFramesFit(bytes: nat, channels: nat, frames: nat)
    requires channels > 0 && frames <= FramesIn(bytes, channels)
    ensures BytesOf(frames, channels) <= bytes
    ensures BytesOf(frames, channels) % (2 * channels) == 0
  {
    FramesAfterPut(bytes, channels, frames);
    assert BytesOf(frames, channels) == frames * (2 * channels);
    DivideUniquely(BytesOf(frames, channels), 2 * channels, frames, 0);
  }

  /** A playing sound: the sound, the player and group it belongs to, whether it loops, its play
      state and its frame cursor. Its SDL audio stream is identified with the instance. */
  class SoundInstance {
    const sound: Sound
    const audioPlayer: AudioPlayer
    const loop: bool
    const soundGroupName: string
    var audioState: AudioState
    var samplePosition: nat

    /** The cursor never passes the end of the sound, and a looping sound leaves it at the end
        only when the sound is empty. */
    ghost predicate Valid()
      reads this
    {
      && samplePosition <= sound.frameCount
      && (loop && sound.frameCount > 0 ==> samplePosition < sound.frameCount)
    }

    /** The instance Play sets up: cursor at frame 0, paused or playing as asked. */
    constructor(sound: Sound, audioPlayer: AudioPlayer, loop: bool, soundGroupName: string, beginPaused: bool)
      ensures Valid()
      ensures this.sound == sound && this.audioPlayer == audioPlayer && this.loop == loop
      ensures this.soundGroupName == soundGroupName
      ensures audioState == (if beginPaused then Paused else Playing) && samplePosition == 0
    {
      this.sound := sound;
      this.audioPlayer := audioPlayer;
      this.loop := loop;
      this.soundGroupName := soundGroupName;
      audioState := if beginPaused then Paused else Playing;
      samplePosition := 0;
    }

    /** `PutSamplesSDL`: hands the stream as many whole frames as the request holds and the sound
        has left after the cursor, advancing the cursor; a looping sound that reaches its end
        rewinds to frame 0 and serves the rest of the request the same way. The volume lookups
        throw when the group or "default" is missing, but only once there is something to put. */
    method PutSamplesSDL(bytesRequested: nat) returns (bytes: nat, chunks: seq<Chunk>, outcome: Outcome)
      requires Valid() && sound.channels > 0
      modifies this
      decreases bytesRequested
      ensures Valid() && audioState == old(audioState)
      ensures var frames := FramesIn(bytesRequested, sound.channels);
        var n := Delivered(sound.frameCount, loop, old(samplePosition), frames);
        var volume := audioPlayer.EffectiveVolume(soundGroupName);
        && (outcome == Fail <==> n > 0 && volume.None?)
        && (outcome == Fail || n == 0 ==> bytes == 0 && chunks == [] && samplePosition == old(samplePosition))
        && (outcome == Ok ==> bytes == BytesOf(n, sound.channels))
        && (outcome == Ok && n > 0 ==> chunks == Chunks(sound.frameCount, loop, old(samplePosition), frames, volume.value))
        && (outcome == Ok ==>
              samplePosition == if loop && sound.frameCount > 0 then (old(samplePosition) + frames) % sound.frameCount
                                else old(samplePosition) + n)
      ensures bytes <= bytesRequested && bytes % (2 * sound.channels) == 0
    {
      var frames := FramesIn(bytesRequested, sound.channels);
      var framesAvailable := sound.frameCount - samplePosition;
      var framesToPut := Min(frames, framesAvailable);
      if framesToPut > 0 {
        var volume := audioPlayer.EffectiveVolume(soundGroupName);
        if volume.None? {
          bytes, chunks, outcome := 0, [], Fail;
          WholeFramesFit(bytesRequested, sound.channels, 0);
          return;
        }
        FramesAfterPut(bytesRequested, sound.channels, framesToPut);
        var bytesToPut := BytesOf(framesToPut, sound.channels);
        var chunk := Chunk(samplePosition, framesToPut, volume.value);
        samplePosition := samplePosition + framesToPut;
        if loop && samplePosition == sound.frameCount {
          samplePosition := 0;
          var more, rest, _ := PutSamplesSDL(bytesRequested - bytesToPut);
          assert more == BytesOf(frames - framesToPut, sound.channels);
          assert samplePosition == (frames - framesToPut) % sound.frameCount;
          bytes, chunks, outcome := bytesToPut + more, [chunk] + rest, Ok;
          WrapOnce(frames - framesToPut, sound.frameCount);
          assert old(samplePosition) + frames == frames - framesToPut + sound.frameCount;
          BytesAdd(framesToPut, frames - framesToPut, sound.channels);
          assert bytes == BytesOf(frames, sound.channels);
        } else {
          bytes, chunks, outcome := bytesToPut, [chunk], Ok;
          if loop && sound.frameCount > 0 {
            WithinOneRound(samplePosition, sound.frameCount);
          }
        }
        var n := Delivered(sound.frameCount, loop, old(samplePosition), frames);
        assert bytes == BytesOf(n, sound.channels);
        WholeFramesFit(bytesRequested, sound.channels, n);
      } else {
        bytes, chunks, outcome := 0, [], Ok;
        if loop && sound.frameCount > 0 {
          WithinOneRound(samplePosition, sound.frameCount);
        }
        WholeFramesFit(bytesRequested, sound.channels, 0);
      }
    }
  }

  /** The bytes of two runs of frames add up. */
  lemma BytesAdd(a: nat, b: nat, channels: nat)
    ensures BytesOf(a, channels) + BytesOf(b, channels) == BytesOf(a + b, channels)
  {
    assert (a + b) * 2 * channels == a * 2 * channels + b * 2 * channels;
  }

  /** The AudioPlayer: the next reference to hand out, the default group settings, the playing
      instances by reference and the groups by name. */
  class AudioPlayer {
    var nextAudioRef: AudioRef
    const defaultSoundGroupSettings: SoundGroupSettings
    var audioInstances: map<AudioRef, SoundInstance>
    var soundGroups: map<string, SoundGroup>
    /** SDL's stream bindings: the logical device the stream of each instance was last bound to. */
    ghost var bound: map<AudioRef, nat>
    /** Every SDL device open and close, in order. */
    ghost var devices: seq<DeviceCall>

    /** `GetGroupDeviceId`: the logical device of a group; an unknown name throws. */
    function GetGroupDeviceId(soundGroupName: string): (r: Option<nat>)
      reads this
      ensures r.Some? <==> soundGroupName in soundGroups
      ensures r.Some? ==> r.value == soundGroups[soundGroupName].logicalAudioDeviceId
    {
      if soundGroupName in soundGroups then Some(soundGroups[soundGroupName].logicalAudioDeviceId) else None
    }

    /** `GetGroupVolume`: the volume of a group; an unknown name throws. */
    function GetGroupVolume(soundGroupName: string): (r: Option<real>)
      reads this
      ensures r.Some? <==> soundGroupName in soundGroups
      ensures r.Some? ==> r.value == soundGroups[soundGroupName].volume
    {
      if soundGroupName in soundGroups then Some(soundGroups[soundGroupName].volume) else None
    }

    /** The volume PutSamplesSDL applies to a sound of group `soundGroupName`: the smaller of
        that group's volume and the "default" group's; missing if either lookup throws. */
    function EffectiveVolume(soundGroupName: string): (r: Option<real>)
      reads this
      ensures r.Some? <==> soundGroupName in soundGroups && "default" in soundGroups
      ensures r.Some? ==> r.value <= soundGroups[soundGroupName].volume && r.value <= soundGroups["default"].volume
      ensures r.Some? ==> r.value == soundGroups[soundGroupName].volume || r.value == soundGroups["default"].volume
    {
      var groupVolume := GetGroupVolume(soundGroupName);
      var defaultVolume := GetGroupVolume("default");
      if groupVolume.Some? && defaultVolume.Some? then
        // std::min(groupVolume, defaultVolume)
        Some(if defaultVolume.value < groupVolume.value then defaultVolume.value else groupVolume.value)
      else None
    }

    /** The instance under `r` belongs to this player, keeps its cursor invariant and belongs to
        an existing group; its stream is bound exactly while it plays, to its group's device. */
    ghost predicate Tracks(r: AudioRef, ai: SoundInstance)
      reads this, ai
    {
      && ai.audioPlayer == this && ai.Valid()
      && ai.soundGroupName in soundGroups
      && (r in bound <==> ai.audioState == Playing)
      && (r in bound ==> bound[r] == soundGroups[ai.soundGroupName].logicalAudioDeviceId)
    }

    /** Every reference handed out is below the next one, distinct references hold distinct
        instances, and only streams of live instances are bound. */
    ghost predicate Valid()
      reads this, audioInstances.Values
    {
      && nextAudioRef >= 1
      && bound.Keys <= audioInstances.Keys
      && (forall r | r in audioInstances :: 1 <= r < nextAudioRef && Tracks(r, audioInstances[r]))
      && (forall r, s | r in audioInstances && s in audioInstances && r != s :: audioInstances[r] != audioInstances[s])
    }

    /** The constructor: references start at 1 and the "default" group is created with the
        default settings. `newLogicalId` is the logical device SDL opened for it. */
    constructor(defaultSoundGroupSettings: SoundGroupSettings, newLogicalId: nat)
      requires newLogicalId != 0
      ensures Valid()
      ensures nextAudioRef == 1 && this.defaultSoundGroupSettings == defaultSoundGroupSettings
      ensures audioInstances == map[] && bound == map[]
      ensures soundGroups == map["default" := SoundGroup(defaultSoundGroupSettings.deviceId, newLogicalId, defaultSoundGroupSettings.volume)]
      ensures devices == [Open(defaultSoundGroupSettings.deviceId, newLogicalId)]
    {
      nextAudioRef := 1;
      this.defaultSoundGroupSettings := defaultSoundGroupSettings;
      audioInstances := map[];
      soundGroups := map[];
      bound := map[];
      devices := [];
      new;
      var _ := CreateSoundGroup("default", defaultSoundGroupSettings, newLogicalId);
    }

    /** `CreateSoundGroup`. `newLogicalId` is what SDL_OpenAudioDevice returns if the call opens a
        device. A new name is registered only when that is nonzero, and the call throws
        otherwise. An existing group always takes the new volume; when its device changes, the
        new device is opened, the group's playing streams are moved to it, and the old logical
        device is closed. The open on this path is not checked. */
    method CreateSoundGroup(soundGroupName: string, settings: SoundGroupSettings, newLogicalId: nat) returns (outcome: Outcome)
      requires Valid()
      modifies this
      ensures Valid()
      ensures nextAudioRef == old(nextAudioRef) && audioInstances == old(audioInstances)
      ensures soundGroupName !in old(soundGroups) && newLogicalId == 0 ==> outcome == Fail && unchanged(this)
      ensures soundGroupName !in old(soundGroups) && newLogicalId != 0 ==>
        && outcome == Ok && bound == old(bound)
        && soundGroups == old(soundGroups)[soundGroupName := SoundGroup(settings.deviceId, newLogicalId, settings.volume)]
        && devices == old(devices) + [Open(settings.deviceId, newLogicalId)]
      ensures soundGroupName in old(soundGroups) && old(soundGroups)[soundGroupName].audioDeviceId == settings.deviceId ==>
        && outcome == Ok && bound == old(bound) && devices == old(devices)
        && soundGroups == old(soundGroups)[soundGroupName := old(soundGroups)[soundGroupName].(volume := settings.volume)]
      ensures soundGroupName in old(soundGroups) && old(soundGroups)[soundGroupName].audioDeviceId != settings.deviceId ==>
        && outcome == Ok
        && soundGroups == old(soundGroups)[soundGroupName := SoundGroup(settings.deviceId, newLogicalId, settings.volume)]
        && devices == old(devices) + [Open(settings.deviceId, newLogicalId), Close(old(soundGroups)[soundGroupName].logicalAudioDeviceId)]
        && bound.Keys == old(bound).Keys
        && (forall r | r in bound ::
              bound[r] == if audioInstances[r].soundGroupName == soundGroupName then newLogicalId else old(bound)[r])
    {
      if soundGroupName in soundGroups {
        var soundGroup := soundGroups[soundGroupName];
        if soundGroup.audioDeviceId != settings.deviceId {
          devices := devices + [Open(settings.deviceId, newLogicalId)];
          RebindGroup(soundGroupName, newLogicalId);
          devices := devices + [Close(soundGroup.logicalAudioDeviceId)];
          soundGroup := soundGroup.(audioDeviceId := settings.deviceId, logicalAudioDeviceId := newLogicalId);
        }
        soundGroups := soundGroups[soundGroupName := soundGroup.(volume := settings.volume)];
        outcome := Ok;
      } else {
        if newLogicalId == 0 {
          outcome := Fail;
          return;
        }
        devices := devices + [Open(settings.deviceId, newLogicalId)];
        soundGroups := soundGroups[soundGroupName := SoundGroup(settings.deviceId, newLogicalId, settings.volume)];
        outcome := Ok;
      }
    }

    /** The loop of CreateSoundGroup over all instances: every playing stream of the group is
        unbound and bound to `newDeviceId`; nothing else changes. */
    method RebindGroup(soundGroupName: string, newDeviceId: nat)
      requires Valid()
      modifies this
      ensures nextAudioRef == old(nextAudioRef) && audioInstances == old(audioInstances)
      ensures soundGroups == old(soundGroups) && devices == old(devices)
      ensures bound.Keys == old(bound).Keys
      ensures forall r | r in bound ::
        bound[r] == if audioInstances[r].soundGroupName == soundGroupName then newDeviceId else old(bound)[r]
    {
      var todo := audioInstances.Keys;
      while todo != {}
        invariant todo <= audioInstances.Keys
        invariant nextAudioRef == old(nextAudioRef) && audioInstances == old(audioInstances)
        invariant soundGroups == old(soundGroups) && devices == old(devices)
        invariant bound.Keys == old(bound).Keys
        invariant forall r | r in bound ::
          bound[r] == if r !in todo && audioInstances[r].soundGroupName == soundGroupName then newDeviceId else old(bound)[r]
        decreases todo
      {
        var r :| r in todo;
        var ai := audioInstances[r];
        if ai.soundGroupName == soundGroupName && ai.audioState == Playing {
          assert Tracks(r, ai);
          bound := bound[r := newDeviceId];
        }
        todo := todo - {r};
      }
    }

    /** `StopGroup`: removes exactly the instances of the group, destroying their streams. */
    method StopGroup(soundGroupName: string)
      requires Valid()
      modifies this
      ensures Valid()
      ensures nextAudioRef == old(nextAudioRef) && soundGroups == old(soundGroups) && devices == old(devices)
      ensures forall r :: r in audioInstances <==>
        r in old(audioInstances) && old(audioInstances)[r].soundGroupName != soundGroupName
      ensures forall r | r in audioInstances :: audioInstances[r] == old(audioInstances)[r]
      ensures forall r :: r in bound <==> r in old(bound) && r in audioInstances
      ensures forall r | r in bound :: bound[r] == old(bound)[r]
    {
      var todo := audioInstances.Keys;
      while todo != {}
        invariant Valid()
        invariant todo <= audioInstances.Keys
        invariant nextAudioRef == old(nextAudioRef) && soundGroups == old(soundGroups) && devices == old(devices)
        invariant forall r :: r in audioInstances <==>
          r in old(audioInstances) && (r in todo || old(audioInstances)[r].soundGroupName != soundGroupName)
        invariant forall r | r in audioInstances :: audioInstances[r] == old(audioInstances)[r]
        invariant forall r :: r in bound <==> r in old(bound) && r in audioInstances
        invariant forall r | r in bound :: bound[r] == old(bound)[r]
        decreases todo
      {
        var r :| r in todo;
        if audioInstances[r].soundGroupName == soundGroupName {
          Stop(r);
        }
        todo := todo - {r};
      }
    }

    /** `DestroySoundGroup`: stops the group's instances, then closes its device and forgets it
        if it exists. */
    method DestroySoundGroup(soundGroupName: string)
      requires Valid()
      modifies this
      ensures Valid()
      ensures nextAudioRef == old(nextAudioRef)
      ensures forall r :: r in audioInstances <==>
        r in old(audioInstances) && old(audioInstances)[r].soundGroupName != soundGroupName
      ensures forall r | r in audioInstances :: audioInstances[r] == old(audioInstances)[r]
      ensures soundGroups == old(soundGroups) - {soundGroupName}
      ensures devices == old(devices) +
        if soundGroupName in old(soundGroups) then [Close(old(soundGroups)[soundGroupName].logicalAudioDeviceId)] else []
    {
      StopGroup(soundGroupName);
      if soundGroupName in soundGroups {
        devices := devices + [Close(soundGroups[soundGroupName].logicalAudioDeviceId)];
        soundGroups := soundGroups - {soundGroupName};
      }
    }

    /** `Pause`: a playing instance becomes paused and its stream is unbound; an unknown
        reference or a paused instance is left alone. No other instance changes. */
    method Pause(audioRef: AudioRef)
      requires Valid()
      modifies this, if audioRef in audioInstances then {audioInstances[audioRef]} else {}
      ensures Valid()
      ensures nextAudioRef == old(nextAudioRef) && audioInstances == old(audioInstances)
      ensures soundGroups == old(soundGroups) && devices == old(devices)
      ensures audioRef in audioInstances ==> audioInstances[audioRef].audioState == Paused
      ensures forall r | r in audioInstances && r != audioRef ::
        audioInstances[r].audioState == old(audioInstances[r].audioState)
      ensures forall r | r in audioInstances :: audioInstances[r].samplePosition == old(audioInstances[r].samplePosition)
      ensures bound == old(bound) - {audioRef}
    {
      if audioRef !in audioInstances || audioInstances[audioRef].audioState == Paused {
        return;
      }
      var ai := audioInstances[audioRef];
      ai.audioState := Paused;
      bound := bound - {audioRef};
    }

    /** `Resume`: a paused instance starts playing and its stream is bound to its group's current
        device; an unknown reference or a playing instance is left alone. No other instance changes. */
    method Resume(audioRef: AudioRef)
      requires Valid()
      modifies this, if audioRef in audioInstances then {audioInstances[audioRef]} else {}
      ensures Valid()
      ensures nextAudioRef == old(nextAudioRef) && audioInstances == old(audioInstances)
      ensures soundGroups == old(soundGroups) && devices == old(devices)
      ensures audioRef in audioInstances ==> audioInstances[audioRef].audioState == Playing
      ensures forall r | r in audioInstances && r != audioRef ::
        audioInstances[r].audioState == old(audioInstances[r].audioState)
      ensures forall r | r in audioInstances :: audioInstances[r].samplePosition == old(audioInstances[r].samplePosition)
      ensures audioRef !in audioInstances || old(audioInstances[audioRef].audioState) == Playing ==> bound == old(bound)
      ensures audioRef in audioInstances && old(audioInstances[audioRef].audioState) == Paused ==>
        bound == old(bound)[audioRef := soundGroups[audioInstances[audioRef].soundGroupName].logicalAudioDeviceId]
    {
      if audioRef !in audioInstances || audioInstances[audioRef].audioState == Playing {
        return;
      }
      var ai := audioInstances[audioRef];
      assert Tracks(audioRef, ai);
      ai.audioState := Playing;
      bound := bound[audioRef := GetGroupDeviceId(ai.soundGroupName).value];
    }

    /** `PauseGroup`: pauses every instance of the group; every other instance keeps its state. */
    method PauseGroup(soundGroupName: string)
      requires Valid()
      modifies this, audioInstances.Values
      ensures Valid()
      ensures nextAudioRef == old(nextAudioRef) && audioInstances == old(audioInstances)
      ensures soundGroups == old(soundGroups) && devices == old(devices)
      ensures forall r | r in audioInstances ::
        && audioInstances[r].audioState ==
             (if audioInstances[r].soundGroupName == soundGroupName then Paused else old(audioInstances[r].audioState))
        && audioInstances[r].samplePosition == old(audioInstances[r].samplePosition)
      ensures forall r :: r in bound <==>
        r in old(bound) && r in audioInstances && audioInstances[r].soundGroupName != soundGroupName
      ensures forall r | r in bound :: bound[r] == old(bound)[r]
    {
      ghost var states := map r | r in audioInstances :: audioInstances[r].audioState;
      ghost var bound0 := bound;
      var todo := audioInstances.Keys;
      while todo != {}
        invariant Valid()
        invariant nextAudioRef == old(nextAudioRef) && audioInstances == old(audioInstances)
        invariant soundGroups == old(soundGroups) && devices == old(devices)
        invariant PausedOutside(soundGroupName, todo, states, bound0)
        invariant forall r | r in audioInstances :: audioInstances[r].samplePosition == old(audioInstances[r].samplePosition)
        decreases todo
      {
        var r :| r in todo;
        PauseMember(soundGroupName, r, todo, states, bound0);
        todo := todo - {r};
      }
    }

    /** How far the PauseGroup loop has got: the group's instances outside `todo` are paused and
        unbound; every other instance keeps the state in `states` and the binding in `bound0`. */
    ghost predicate PausedOutside(soundGroupName: string, todo: set<AudioRef>, states: map<AudioRef, AudioState>,
                                  bound0: map<AudioRef, nat>)
      reads this, audioInstances.Values
    {
      && todo <= audioInstances.Keys && states.Keys == audioInstances.Keys
      && (forall r | r in audioInstances ::
            audioInstances[r].audioState ==
              if r !in todo && audioInstances[r].soundGroupName == soundGroupName then Paused else states[r])
      && (forall r :: r in bound <==>
            r in bound0 && r in audioInstances && (r in todo || audioInstances[r].soundGroupName != soundGroupName))
      && (forall r | r in bound :: bound[r] == bound0[r])
    }

    /** One turn of the PauseGroup loop: the instance under `r` is paused if it is in the group. */
    method PauseMember(soundGroupName: string, r: AudioRef, ghost todo: set<AudioRef>,
                       ghost states: map<AudioRef, AudioState>, ghost bound0: map<AudioRef, nat>)
      requires Valid() && r in todo && PausedOutside(soundGroupName, todo, states, bound0)
      modifies this, audioInstances.Values
      ensures Valid() && PausedOutside(soundGroupName, todo - {r}, states, bound0)
      ensures nextAudioRef == old(nextAudioRef) && audioInstances == old(audioInstances)
      ensures soundGroups == old(soundGroups) && devices == old(devices)
      ensures forall r | r in audioInstances :: audioInstances[r].samplePosition == old(audioInstances[r].samplePosition)
    {
      if audioInstances[r].soundGroupName == soundGroupName {
        Pause(r);
      }
    }

    /** `ResumeGroup`: resumes every instance of the group, binding each one that was paused to
        the group's device; every other instance keeps its state. */
    method ResumeGroup(soundGroupName: string)
      requires Valid()
      modifies this, audioInstances.Values
      ensures Valid()
      ensures nextAudioRef == old(nextAudioRef) && audioInstances == old(audioInstances)
      ensures soundGroups == old(soundGroups) && devices == old(devices)
      ensures forall r | r in audioInstances ::
        && audioInstances[r].audioState ==
             (if audioInstances[r].soundGroupName == soundGroupName then Playing else old(audioInstances[r].audioState))
        && audioInstances[r].samplePosition == old(audioInstances[r].samplePosition)
      ensures forall r :: r in bound <==>
        r in old(bound) || (r in audioInstances && audioInstances[r].soundGroupName == soundGroupName)
      ensures forall r | r in bound ::
        bound[r] == if r in old(bound) then old(bound)[r] else soundGroups[soundGroupName].logicalAudioDeviceId
    {
      var todo := audioInstances.Keys;
      while todo != {}
        invariant Valid()
        invariant todo <= audioInstances.Keys
        invariant nextAudioRef == old(nextAudioRef) && audioInstances == old(audioInstances)
        invariant soundGroups == old(soundGroups) && devices == old(devices)
        invariant forall r | r in audioInstances ::
          audioInstances[r].audioState ==
            if r !in todo && audioInstances[r].soundGroupName == soundGroupName then Playing
            else old(audioInstances[r].audioState)
        invariant forall r | r in audioInstances :: audioInstances[r].samplePosition == old(audioInstances[r].samplePosition)
        invariant forall r :: r in bound <==>
          r in old(bound) || (r in audioInstances && r !in todo && audioInstances[r].soundGroupName == soundGroupName)
        invariant forall r | r in bound ::
          bound[r] == if r in old(bound) then old(bound)[r] else soundGroups[soundGroupName].logicalAudioDeviceId
        decreases todo
      {
        var r :| r in todo;
        if audioInstances[r].soundGroupName == soundGroupName {
          Resume(r);
        }
        todo := todo - {r};
      }
    }

    /** `Play`: creates the group with the default settings if the name is unknown (`newLogicalId`
        is the logical device SDL opens for it), then registers a new instance under the next
        reference, paused or playing as asked, and binds its stream to the group's device only
        when playing. References are handed out in increasing order and never reused. */
    method Play(sound: Sound, soundGroupName: string, beginPaused: bool, loop: bool, newLogicalId: nat)
      returns (audioRef: AudioRef, outcome: Outcome)
      requires Valid()
      modifies this
      ensures Valid()
      ensures outcome == Fail <==> soundGroupName !in old(soundGroups) && newLogicalId == 0
      ensures outcome == Fail ==> unchanged(this)
      ensures outcome == Ok ==>
        && audioRef == old(nextAudioRef) && nextAudioRef == audioRef + 1
        && audioRef !in old(audioInstances) && audioRef in audioInstances
        && fresh(audioInstances[audioRef])
        && audioInstances == old(audioInstances)[audioRef := audioInstances[audioRef]]
        && soundGroups == (if soundGroupName in old(soundGroups) then old(soundGroups)
                           else old(soundGroups)[soundGroupName := SoundGroup(defaultSoundGroupSettings.deviceId,
                                                   newLogicalId, defaultSoundGroupSettings.volume)])
        && bound == (if beginPaused then old(bound)
                     else old(bound)[audioRef := soundGroups[soundGroupName].logicalAudioDeviceId])
        && devices == old(devices) + (if soundGroupName in old(soundGroups) then []
                                      else [Open(defaultSoundGroupSettings.deviceId, newLogicalId)])
      ensures outcome == Ok ==>
        var ai := audioInstances[audioRef];
        && ai.sound == sound && ai.soundGroupName == soundGroupName && ai.loop == loop
        && ai.audioState == (if beginPaused then Paused else Playing) && ai.samplePosition == 0
    {
      if soundGroupName !in soundGroups {
        outcome := CreateSoundGroup(soundGroupName, defaultSoundGroupSettings, newLogicalId);
        if outcome == Fail {
          audioRef := 0;
          return;
        }
      }
      audioRef := Register(sound, soundGroupName, beginPaused, loop);
      outcome := Ok;
    }

    /** The second half of Play, once the group exists: the new instance goes under the next
        reference, and its stream is bound to the group's device when it starts playing. */
    method Register(sound: Sound, soundGroupName: string, beginPaused: bool, loop: bool) returns (audioRef: AudioRef)
      requires Valid() && soundGroupName in soundGroups
      modifies this
      ensures Valid()
      ensures audioRef == old(nextAudioRef) && nextAudioRef == audioRef + 1
      ensures audioRef !in old(audioInstances) && audioRef in audioInstances
      ensures fresh(audioInstances[audioRef])
      ensures audioInstances == old(audioInstances)[audioRef := audioInstances[audioRef]]
      ensures soundGroups == old(soundGroups) && devices == old(devices)
      ensures bound == if beginPaused then old(bound) else old(bound)[audioRef := soundGroups[soundGroupName].logicalAudioDeviceId]
      ensures var ai := audioInstances[audioRef];
        && ai.sound == sound && ai.soundGroupName == soundGroupName && ai.loop == loop
        && ai.audioState == (if beginPaused then Paused else Playing) && ai.samplePosition == 0
    {
      ghost var instancesBefore, boundBefore := audioInstances, bound;
      var si := new SoundInstance(sound, this, loop, soundGroupName, beginPaused);
      audioRef := nextAudioRef;
      if !beginPaused {
        bound := bound[audioRef := soundGroups[soundGroupName].logicalAudioDeviceId];
      }
      audioInstances := audioInstances[audioRef := si];
      nextAudioRef := nextAudioRef + 1;
      forall r | r in audioInstances
        ensures 1 <= r < nextAudioRef && Tracks(r, audioInstances[r])
      {
        if r != audioRef {
          assert Tracks(r, instancesBefore[r]) && (r in bound <==> r in boundBefore);
        }
      }
    }

    /** `AudioCallback`, reached from SDL's stream callback: the instance puts samples, and the
        player's invariant survives the move of the cursor. */
    method AudioCallback(si: SoundInstance, bytesRequested: nat) returns (bytes: nat, chunks: seq<Chunk>, outcome: Outcome)
      requires Valid() && si in audioInstances.Values && si.sound.channels > 0
      modifies si
      ensures Valid()
      ensures si.audioState == old(si.audioState)
      ensures bytes <= bytesRequested && bytes % (2 * si.sound.channels) == 0
    {
      bytes, chunks, outcome := si.PutSamplesSDL(bytesRequested);
    }

    /** `Stop`: removes the instance and destroys its stream; an unknown reference is left alone. */
    method Stop(audioRef: AudioRef)
      requires Valid()
      modifies this
      ensures Valid()
      ensures nextAudioRef == old(nextAudioRef) && soundGroups == old(soundGroups) && devices == old(devices)
      ensures audioInstances == old(audioInstances) - {audioRef}
      ensures bound == old(bound) - {audioRef}
    {
      if audioRef !in audioInstances {
        return;
      }
      audioInstances := audioInstances - {audioRef};
      bound := bound - {audioRef};
    }
  }

  /** What is left of a request once `put` of its frames are delivered is again a request of a
      whole number of frames, `put` fewer than before. */
  lemma FramesAfterPut(bytes: nat, channels: nat, put: nat)
    requires channels > 0 && put <= FramesIn(bytes, channels)
    ensures BytesOf(put, channels) <= bytes
    ensures FramesIn(bytes - BytesOf(put, channels), channels) == FramesIn(bytes, channels) - put
  {
    var half := bytes / 2;
    var q := half / channels;
    var r := half % channels;
    assert half == q * channels + r;
    assert BytesOf(put, channels) == 2 * (put * channels);
    assert put * channels <= q * channels by { MulMonotone(put, q, channels); }
    assert (bytes - BytesOf(put, channels)) / 2 == half - put * channels;
    assert half - put * channels == (q - put) * channels + r;
    DivideUniquely(half - put * channels, channels, q - put, r);
  }

  /** Request bytes beyond the whole frames are never delivered: the frames requested fit in it. */
  lemma BytesOfFramesIn(bytes: nat, channels: nat)
    requires channels > 0
    ensures BytesOf(FramesIn(bytes, channels), channels) <= bytes
  {
    var half := bytes / 2;
    assert half == (half / channels) * channels + half % channels;
  }

  lemma MulMonotone(a: nat, b: nat, c: nat)
    requires a <= b
    ensures a * c <= b * c
  {
  }

  lemma DivideUniquely(a: nat, d: nat, q: nat, r: nat)
    requires d > 0 && a == q * d + r && r < d
    ensures a / d == q
  {
    var q', r' := a / d, a % d;
    assert a == q' * d + r' && 0 <= r' < d;
    if q' < q {
      MulMonotone(1, q - q', d);
    } else if q' > q {
      MulMonotone(1, q' - q, d);
    }
  }

  /** A reference stays dead after Stop: the next Play hands out a larger one. */
  method RefsNeverReused(player: AudioPlayer, sound: Sound, soundGroupName: string)
    returns (first: AudioRef, second: AudioRef)
    requires player.Valid() && soundGroupName in player.soundGroups
    modifies player
    ensures player.Valid()
    ensures first < second && first !in player.audioInstances && second in player.audioInstances
  {
    var outcome;
    first, outcome := player.Play(sound, soundGroupName, false, false, 0);
    player.Stop(first);
    second, outcome := player.Play(sound, soundGroupName, false, false, 0);
  }
}
