/** The audio editor modal: a preview sound with volume and speed sliders
    and a play/pause button, whose save hands volume, speed and the file's
    uri back to the screen that opened it. */
module AudioEditor {
  import opened Common
  import opened Media

  /** The outcome of `Audio.Sound.createAsync` for the editor: a sound whose
      status is loaded, a sound whose status is not loaded, or a throw. */
  datatype LoadOutcome = LoadedSound(sound: Sound) | NotLoadedSound(sound: Sound) | LoadThrew

  /** The creation request: the file, not playing, at the current volume and
      speed. */
  datatype CreateRequest = CreateRequest(uri: string, volume: real, rate: real)

  /** The arguments `handleSave` passes to `onSave`. */
  datatype SaveArguments = SaveArguments(volume: real, speed: real, editedUri: Option<string>)

  /** The effect loads a sound when the modal is visible and has a file uri,
      and unloads otherwise. */
  predicate ShouldLoad(visible: bool, fileUri: string)
  {
    visible && fileUri != ""
  }

  class AudioEditorModal {
    var sound: Option<Sound>
    var volume: real
    var speed: real
    var isLoading: bool
    var isPlaying: bool

    /** The editor plays only with a sound, and while it shows the spinner it
        has no sound and is not playing. */
    predicate Valid()
      reads this
    {
      && (isPlaying ==> sound.Some?)
      && (isLoading ==> sound.None? && !isPlaying)
    }

    /** The state of a freshly mounted editor, to which unloading returns. */
    predicate IsInitial()
      reads this
    {
      sound == None && volume == 1.0 && speed == 1.0 && isLoading && !isPlaying
    }

    constructor ()
      ensures IsInitial() && Valid()
    {
      sound := None;
      volume := 1.0;
      speed := 1.0;
      isLoading := true;
      isPlaying := false;
    }

    /** The status callback: a finished playback stops showing as playing and
        rewinds the sound the callback sees. `seen` is the `sound` the
        callback's closure holds. */
    method OnPlaybackStatusUpdate(status: PlaybackStatus, seen: Option<Sound>) returns (calls: seq<SoundCall>)
      requires Valid()
      modifies this`isPlaying
      ensures Valid()
      ensures status.Loaded? && status.didJustFinish ==> !isPlaying && calls == CallsOn(seen, SetPosition(0))
      ensures !(status.Loaded? && status.didJustFinish) ==> isPlaying == old(isPlaying) && calls == []
    {
      calls := [];
      if status.Loaded? && status.didJustFinish {
        isPlaying := false;
        calls := CallsOn(seen, SetPosition(0));
      }
    }

    /** `loadSound`: ask for a sound at the current volume and speed; keep it
        only when its status is loaded. A throw alerts and asks the screen to
        close the editor. Loading always ends with the spinner off. */
    method LoadSound(fileUri: string, outcome: LoadOutcome)
      returns (request: CreateRequest, closeRequested: bool, alert: Option<Alert>)
      requires Valid()
      modifies this`sound, this`isLoading
      ensures Valid() && !isLoading
      ensures request == CreateRequest(fileUri, volume, speed)
      ensures sound == if outcome.LoadedSound? then Some(outcome.sound) else old(sound)
      ensures closeRequested <==> outcome.LoadThrew?
      ensures alert == if outcome.LoadThrew? then Some(Alert("Error", "Failed to load sound file.")) else None
    {
      isLoading := true;
      request := CreateRequest(fileUri, volume, speed);
      closeRequested := false;
      alert := None;
      match outcome {
        case LoadedSound(s) => sound := Some(s);
        case NotLoadedSound(_) =>
        case LoadThrew =>
          alert := Some(Alert("Error", "Failed to load sound file."));
          closeRequested := true;
      }
      isLoading := false;
    }

    /** `unloadSound`: unload and drop the sound if there is one, then return
        to the initial state. */
    method UnloadSound() returns (calls: seq<SoundCall>)
      modifies this
      ensures calls == CallsOn(old(sound), Unload)
      ensures IsInitial() && Valid()
    {
      calls := CallsOn(sound, Unload);
      sound := None;
      isLoading := true;
      volume := 1.0;
      speed := 1.0;
      isPlaying := false;
    }

    /** The effect run when `visible` or `fileUri` changes: load the file at
        the current volume and speed when visible with a uri, else unload. */
    method OnVisibilityChange(visible: bool, fileUri: string, outcome: LoadOutcome)
      returns (request: Option<CreateRequest>, calls: seq<SoundCall>, closeRequested: bool, alert: Option<Alert>)
      requires Valid()
      modifies this
      ensures Valid()
      ensures ShouldLoad(visible, fileUri) ==>
        && request == Some(CreateRequest(fileUri, old(volume), old(speed)))
        && !isLoading && calls == [] && (closeRequested <==> outcome.LoadThrew?)
        && alert == (if outcome.LoadThrew? then Some(Alert("Error", "Failed to load sound file.")) else None)
        && volume == old(volume) && speed == old(speed) && isPlaying == old(isPlaying)
        && sound == (if outcome.LoadedSound? then Some(outcome.sound) else old(sound))
      ensures !ShouldLoad(visible, fileUri) ==>
        && request == None && IsInitial() && calls == CallsOn(old(sound), Unload)
        && !closeRequested && alert == None
    {
      if ShouldLoad(visible, fileUri) {
        var r;
        r, closeRequested, alert := LoadSound(fileUri, outcome);
        request := Some(r);
        calls := [];
      } else {
        calls := UnloadSound();
        request := None;
        closeRequested := false;
        alert := None;
      }
    }

    /** `handleVolumeChange`: the slider value is kept as given and sent to
        the sound, if any. */
    method HandleVolumeChange(value: real) returns (calls: seq<SoundCall>)
      requires Valid()
      modifies this`volume
      ensures Valid() && volume == value
      ensures calls == CallsOn(sound, SetVolume(value))
    {
      volume := value;
      calls := CallsOn(sound, SetVolume(value));
    }

    /** `handleSpeedChange`: the slider value is kept as given and sent to
        the sound as its rate (with pitch correction), if any. */
    method HandleSpeedChange(value: real) returns (calls: seq<SoundCall>)
      requires Valid()
      modifies this`speed
      ensures Valid() && speed == value
      ensures calls == CallsOn(sound, SetRate(value))
    {
      speed := value;
      calls := CallsOn(sound, SetRate(value));
    }

    /** `handlePlayPause`: nothing without a sound; otherwise pause a playing
        sound or play a paused one. The call is not caught: when it fails the
        playing flag keeps its value. */
    method HandlePlayPause(callFails: bool) returns (calls: seq<SoundCall>)
      requires Valid()
      modifies this`isPlaying
      ensures Valid()
      ensures sound.None? ==> isPlaying == old(isPlaying) && calls == []
      ensures sound.Some? ==> calls == [SoundCall(sound.value, if old(isPlaying) then Pause else Play)]
      ensures sound.Some? && !callFails ==> isPlaying == !old(isPlaying)
      ensures sound.Some? && callFails ==> isPlaying == old(isPlaying)
    {
      if sound.None? {
        return [];
      }
      if isPlaying {
        calls := [SoundCall(sound.value, Pause)];
        if !callFails {
          isPlaying := false;
        }
      } else {
        calls := [SoundCall(sound.value, Play)];
        if !callFails {
          isPlaying := true;
        }
      }
    }

    /** `handleSave`: the current volume and speed, and the unchanged file
        uri as the edited uri. */
    method HandleSave(fileUri: string) returns (args: SaveArguments)
      ensures args.volume == volume && args.speed == speed
      ensures args.editedUri == Some(fileUri)
    {
      args := SaveArguments(volume, speed, Some(fileUri));
    }
  }
}
