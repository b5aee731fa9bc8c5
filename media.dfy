/** The expo-av boundary shared by the create-post screen and the audio editor:
    sound and recording handles, the playback status the platform pushes, and
    the calls the screens make on a sound. */
module Media {
  import opened Common

  /** An `Audio.Sound` instance, known only by identity. */
  datatype Sound = Sound(token: nat)

  /** An `Audio.Recording` instance, known only by identity. */
  datatype Recording = Recording(token: nat)

  /** An `AVPlaybackStatus`: either not loaded, or loaded with the current
      position, the duration (absent for some streams), whether it is playing
      and whether playback has just reached the end. */
  datatype PlaybackStatus =
    | NotLoaded
    | Loaded(positionMillis: int, durationMillis: Option<int>, isPlaying: bool, didJustFinish: bool)

  datatype SoundOp = Play | Pause | SetPosition(millis: int) | Stop | Unload | SetVolume(volume: real) | SetRate(rate: real)

  /** One asynchronous call made on a sound. */
  datatype SoundCall = SoundCall(target: Sound, op: SoundOp)

  /** The calls `[op]` on `sound` if there is one, else none. */
  function CallsOn(sound: Option<Sound>, op: SoundOp): seq<SoundCall>
  {
    if sound.Some? then [SoundCall(sound.value, op)] else []
  }
}
