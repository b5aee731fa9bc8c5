/** The create-post screen: its state fields and the handlers that update
    them. Each SDK call is an outcome parameter; each handler returns the SDK
    calls it makes and the alert it shows. */
module EditScreen {
  import opened Common
  import opened Strings
  import opened Media
  import opened EditRules

  /** A selected audio file, with the sound created to preview it, if any. */
  datatype AudioFile = AudioFile(id: string, uri: string, name: string, sound: Option<Sound>)

  datatype ImageFile = ImageFile(uri: string, name: string)

  /** A file returned by a picker; `name` may be missing. */
  datatype PickedAsset = PickedAsset(uri: string, name: Option<string>)

  /** The outcome of a document or image picker. */
  datatype PickResult = PickCanceled | Picked(assets: seq<PickedAsset>) | PickThrew

  /** The outcome of asking for photo-library permission. */
  datatype Permission = Granted | Denied | PermissionThrew

  /** The outcome of preparing and starting a recording. */
  datatype StartResult = Started(recording: Recording) | StartThrew

  /** The outcome of `stopAndUnloadAsync` followed by `getURI`. */
  datatype StopResult = Stopped(uri: Option<string>) | StopThrew

  /** The outcome of `Audio.Sound.createAsync`. */
  datatype CreateResult = Created(sound: Sound) | CreateThrew

  /** The single playback request `playAudio` makes. */
  datatype PlayRequest = PauseSound(paused: Sound) | PlaySound(played: Sound) | CreateAndPlay(uri: string)

  /** What `uploadPost` tells the user. */
  datatype UploadAlert = MissingInformation | UploadSucceeded

  /** The three things a post needs: an audio, an image and a description
      that is not the empty string (it is not trimmed). */
  predicate DraftComplete(audio: Option<AudioFile>, image: Option<ImageFile>, description: string)
  {
    audio.Some? && image.Some? && description != ""
  }

  /** The stored file is deleted only when the documents directory is known
      and the file's uri lies under it. */
  predicate InAppDocuments(uri: string, documentDirectory: Option<string>)
  {
    Truthy(documentDirectory) && StartsWith(uri, documentDirectory.value)
  }

  /** The duration a loaded status reports, `durationMillis || 0`. */
  function DurationOrZero(d: Option<int>): int
  {
    if d.Some? then d.value else 0
  }

  /** `selectedAudio` with its sound reference dropped. */
  function WithoutSound(a: Option<AudioFile>): Option<AudioFile>
  {
    if a.Some? then Some(a.value.(sound := None)) else None
  }

  /** The sound of the selected audio, if both exist. */
  function SoundOf(a: Option<AudioFile>): Option<Sound>
  {
    if a.Some? then a.value.sound else None
  }

  class CreatePostScreen {
    var recording: Option<Recording>
    var selectedAudio: Option<AudioFile>
    var imageFile: Option<ImageFile>
    var description: string
    var editorVisible: bool
    var isPlaying: bool
    var playbackPosition: int
    var playbackDuration: int

    constructor ()
      ensures recording == None && selectedAudio == None && imageFile == None
      ensures description == "" && !editorVisible
      ensures !isPlaying && playbackPosition == 0 && playbackDuration == 0
    {
      recording := None;
      selectedAudio := None;
      imageFile := None;
      description := "";
      editorVisible := false;
      isPlaying := false;
      playbackPosition := 0;
      playbackDuration := 0;
    }

    /** `onPlaybackStatusUpdate`: an unloaded status resets the player and
        drops the sound; a loaded one copies position, duration and playing
        state, and a finished one rewinds and stops the sound. */
    method OnPlaybackStatusUpdate(status: PlaybackStatus) returns (calls: seq<SoundCall>)
      modifies this`isPlaying, this`playbackPosition, this`playbackDuration, this`selectedAudio
      ensures status.NotLoaded? ==>
        && !isPlaying && playbackPosition == 0 && playbackDuration == 0
        && selectedAudio == WithoutSound(old(selectedAudio))
        && calls == []
      ensures status.Loaded? ==>
        && selectedAudio == old(selectedAudio)
        && playbackDuration == DurationOrZero(status.durationMillis)
        && (if status.didJustFinish then
              && !isPlaying && playbackPosition == 0
              && calls == CallsOn(SoundOf(selectedAudio), SetPosition(0)) + CallsOn(SoundOf(selectedAudio), Stop)
            else
              && isPlaying == status.isPlaying && playbackPosition == status.positionMillis
              && calls == [])
    {
      calls := [];
      if status.NotLoaded? {
        isPlaying := false;
        playbackPosition := 0;
        playbackDuration := 0;
        if selectedAudio.Some? {
          selectedAudio := Some(selectedAudio.value.(sound := None));
        }
        return;
      }
      playbackPosition := status.positionMillis;
      playbackDuration := DurationOrZero(status.durationMillis);
      isPlaying := status.isPlaying;
      if status.didJustFinish {
        isPlaying := false;
        playbackPosition := 0;
        var sound := SoundOf(selectedAudio);
        calls := CallsOn(sound, SetPosition(0)) + CallsOn(sound, Stop);
      }
    }

    /** `pickAudio`: the first picked asset becomes the selected audio, named
        `audio-<now>.mp3` when the picker gives no name; the previous
        selection is dropped without unloading its sound. */
    method PickAudio(result: PickResult, now: nat) returns (alert: Option<Alert>)
      modifies this`selectedAudio
      ensures result.Picked? && |result.assets| > 0 ==>
        selectedAudio == Some(AudioFile(NatToString(now), result.assets[0].uri,
                                        PickedAudioName(result.assets[0].name, now), None))
      ensures !(result.Picked? && |result.assets| > 0) ==> selectedAudio == old(selectedAudio)
      ensures alert == if result.PickThrew? then Some(Alert("Error", "Failed to pick audio.")) else None
    {
      alert := None;
      match result {
        case PickThrew =>
          alert := Some(Alert("Error", "Failed to pick audio."));
        case PickCanceled =>
        case Picked(assets) =>
          if |assets| > 0 {
            var asset := assets[0];
            selectedAudio := Some(AudioFile(NatToString(now), asset.uri, PickedAudioName(asset.name, now), None));
          }
      }
    }

    /** `pickImage`: without permission nothing is picked; otherwise the first
        picked asset becomes the cover image, named `image-<now>.jpg` when it
        has no file name. */
    method PickImage(permission: Permission, result: PickResult, now: nat) returns (alert: Option<Alert>)
      modifies this`imageFile
      ensures permission.Granted? && result.Picked? && |result.assets| > 0 ==>
        imageFile == Some(ImageFile(result.assets[0].uri, PickedImageName(result.assets[0].name, now)))
      ensures !(permission.Granted? && result.Picked? && |result.assets| > 0) ==> imageFile == old(imageFile)
      ensures alert == match permission
        case Denied => Some(Alert("Permission required for photos.", ""))
        case PermissionThrew => Some(Alert("Error", "Failed to pick image."))
        case Granted => if result.PickThrew? then Some(Alert("Error", "Failed to pick image.")) else None
    {
      alert := None;
      match permission {
        case PermissionThrew =>
          alert := Some(Alert("Error", "Failed to pick image."));
        case Denied =>
          alert := Some(Alert("Permission required for photos.", ""));
        case Granted =>
          match result {
            case PickThrew =>
              alert := Some(Alert("Error", "Failed to pick image."));
            case PickCanceled =>
            case Picked(assets) =>
              if |assets| > 0 {
                imageFile := Some(ImageFile(assets[0].uri, PickedImageName(assets[0].name, now)));
              }
          }
      }
    }

    /** `startRecording`: the permission answer is not inspected; a recording
        that starts becomes the current one, a failure only alerts. */
    method StartRecording(result: StartResult) returns (alert: Option<Alert>)
      modifies this`recording
      ensures result.Started? ==> recording == Some(result.recording) && alert == None
      ensures result.StartThrew? ==> recording == old(recording) && alert == Some(Alert("Error", "Failed to start recording."))
    {
      alert := None;
      match result {
        case Started(rec) => recording := Some(rec);
        case StartThrew => alert := Some(Alert("Error", "Failed to start recording."));
      }
    }

    /** `stopRecording`: a no-op when not recording. A stopped recording with
        a uri becomes the selected audio, named `recording-<now>.m4a`, and the
        recording is cleared; a failure leaves the recording in place. */
    method StopRecording(result: StopResult, now: nat) returns (alert: Option<Alert>)
      modifies this`recording, this`selectedAudio
      ensures old(recording).None? ==>
        recording == old(recording) && selectedAudio == old(selectedAudio) && alert == None
      ensures old(recording).Some? && result.Stopped? ==>
        && recording == None && alert == None
        && selectedAudio == (if Truthy(result.uri)
                             then Some(AudioFile(NatToString(now), result.uri.value, RecordingName(now), None))
                             else old(selectedAudio))
      ensures old(recording).Some? && result.StopThrew? ==>
        && recording == old(recording) && selectedAudio == old(selectedAudio)
        && alert == Some(Alert("Error", "Failed to stop recording."))
    {
      alert := None;
      if recording.None? {
        return;
      }
      match result {
        case StopThrew =>
          alert := Some(Alert("Error", "Failed to stop recording."));
        case Stopped(uri) =>
          if Truthy(uri) {
            selectedAudio := Some(AudioFile(NatToString(now), uri.value, RecordingName(now), None));
          }
          recording := None;
      }
    }

    /** The confirmed branch of `deleteFile`: unload the file's sound, clear
        the selection and the player, and ask storage to delete the file only
        when it lies in the app's documents directory. A failed deletion is
        logged and changes nothing. */
    method DeleteFile(file: AudioFile, documentDirectory: Option<string>, deleteFails: bool)
      returns (calls: seq<SoundCall>, deleteRequested: bool, logged: bool)
      modifies this`selectedAudio, this`isPlaying, this`playbackPosition, this`playbackDuration
      ensures selectedAudio == None && !isPlaying && playbackPosition == 0 && playbackDuration == 0
      ensures calls == CallsOn(file.sound, Unload)
      ensures deleteRequested == InAppDocuments(file.uri, documentDirectory)
      ensures logged == (deleteRequested && deleteFails)
    {
      calls := CallsOn(file.sound, Unload);
      selectedAudio := None;
      isPlaying := false;
      playbackPosition := 0;
      playbackDuration := 0;
      deleteRequested := InAppDocuments(file.uri, documentDirectory);
      logged := deleteRequested && deleteFails;
    }

    /** `playAudio`, called from the preview of the selected audio: pause a
        playing sound, play a paused one, or create a sound that starts
        playing and attach it to the selection. A failed call alerts and
        changes no state. */
    method PlayAudio(file: AudioFile, callFails: bool, create: CreateResult)
      returns (request: PlayRequest, alert: Option<Alert>)
      requires selectedAudio.Some?
      modifies this`isPlaying, this`selectedAudio
      ensures file.sound.Some? && old(isPlaying) ==>
        && request == PauseSound(file.sound.value)
        && selectedAudio == old(selectedAudio)
        && isPlaying == (callFails && old(isPlaying))
      ensures file.sound.Some? && !old(isPlaying) ==>
        && request == PlaySound(file.sound.value)
        && selectedAudio == old(selectedAudio)
        && isPlaying == !callFails
      ensures file.sound.None? ==>
        && request == CreateAndPlay(file.uri)
        && isPlaying == old(isPlaying)
        && selectedAudio == (if create.Created?
                             then Some(old(selectedAudio).value.(sound := Some(create.sound)))
                             else old(selectedAudio))
      ensures (if file.sound.Some? then callFails else create.CreateThrew?) <==> alert.Some?
      ensures alert.Some? ==> alert == Some(Alert("Error", "Failed to play audio."))
    {
      alert := None;
      if file.sound.Some? && isPlaying {
        request := PauseSound(file.sound.value);
        if !callFails {
          isPlaying := false;
        }
      } else if file.sound.Some? && !isPlaying {
        request := PlaySound(file.sound.value);
        if !callFails {
          isPlaying := true;
        }
      } else {
        request := CreateAndPlay(file.uri);
        if create.Created? {
          selectedAudio := Some(selectedAudio.value.(sound := Some(create.sound)));
        }
      }
      if (if file.sound.Some? then callFails else create.CreateThrew?) {
        alert := Some(Alert("Error", "Failed to play audio."));
      }
    }

    /** `editFile`: unload the preview sound (without waiting and without
        dropping the reference from the selection), reset the player and open
        the editor. */
    method EditFile(file: AudioFile) returns (calls: seq<SoundCall>)
      modifies this`isPlaying, this`playbackPosition, this`playbackDuration, this`editorVisible
      ensures calls == CallsOn(file.sound, Unload)
      ensures !isPlaying && playbackPosition == 0 && playbackDuration == 0 && editorVisible
    {
      calls := CallsOn(file.sound, Unload);
      isPlaying := false;
      playbackPosition := 0;
      playbackDuration := 0;
      editorVisible := true;
    }

    /** `onScrub`: without a selected sound nothing happens; otherwise seek,
        and record the new position once the seek resolved. */
    method OnScrub(value: int, seekFails: bool) returns (calls: seq<SoundCall>)
      modifies this`playbackPosition
      ensures calls == CallsOn(SoundOf(selectedAudio), SetPosition(value))
      ensures playbackPosition == if SoundOf(selectedAudio).Some? && !seekFails then value else old(playbackPosition)
    {
      calls := [];
      if selectedAudio.Some? && selectedAudio.value.sound.Some? {
        calls := [SoundCall(selectedAudio.value.sound.value, SetPosition(value))];
        if !seekFails {
          playbackPosition := value;
        }
      }
    }

    /** `uploadPost`: an incomplete draft only warns; a complete one reports
        success and clears the audio, the image and the description. */
    method UploadPost() returns (alert: UploadAlert)
      modifies this`selectedAudio, this`imageFile, this`description
      ensures alert == if DraftComplete(old(selectedAudio), old(imageFile), old(description))
                       then UploadSucceeded else MissingInformation
      ensures alert == UploadSucceeded ==> selectedAudio == None && imageFile == None && description == ""
      ensures alert == MissingInformation ==>
        selectedAudio == old(selectedAudio) && imageFile == old(imageFile) && description == old(description)
    {
      if selectedAudio.None? || imageFile.None? || description == "" {
        return MissingInformation;
      }
      alert := UploadSucceeded;
      selectedAudio := None;
      imageFile := None;
      description := "";
    }

    /** `handleSaveEdit`, the editor's save callback: with a selected audio
        and a non-empty edited uri the selection keeps its id and sound, takes
        the edited uri and the next "edited" name; the editor always closes.
        Volume and speed are only logged. */
    method HandleSaveEdit(volume: real, speed: real, editedUri: Option<string>)
      modifies this`selectedAudio, this`editorVisible
      ensures !editorVisible
      ensures old(selectedAudio).Some? && Truthy(editedUri) ==>
        selectedAudio == Some(old(selectedAudio).value.(uri := editedUri.value,
                                                          name := Rename(old(selectedAudio).value.name)))
      ensures !(old(selectedAudio).Some? && Truthy(editedUri)) ==> selectedAudio == old(selectedAudio)
    {
      if selectedAudio.Some? && Truthy(editedUri) {
        var prev := selectedAudio.value;
        selectedAudio := Some(prev.(uri := editedUri.value, name := Rename(prev.name)));
      }
      editorVisible := false;
    }

    /** The editor's `onClose`: hide the editor. */
    method CloseEditor()
      modifies this`editorVisible
      ensures !editorVisible
    {
      editorVisible := false;
    }

    /** The props the screen gives the editor modal: the selected file's uri,
        or "" when it has none. */
    function EditorFileUri(): (uri: string)
      reads this
      requires selectedAudio.Some?
      ensures uri == selectedAudio.value.uri
    {
      OrElse(Some(selectedAudio.value.uri), "")
    }
  }
}
