/** The create-post screen and the audio editor working together: the
    editor is opened on the selected audio and its save goes back to the
    screen's `handleSaveEdit`. */
module EditFlow {
  import opened Common
  import opened EditRules
  import opened EditScreen
  import opened AudioEditor

  /** Pressing save in the editor. The editor hands back the very uri it was
      given, so the selection keeps its file (and its id and sound) and only
      its name moves on by one "edited" step; a selection with an empty uri
      is left as it is. The editor closes either way. */
  method SaveFromEditor(screen: CreatePostScreen, editor: AudioEditorModal)
    requires screen.selectedAudio.Some?
    modifies screen`selectedAudio, screen`editorVisible
    ensures !screen.editorVisible
    ensures var before := old(screen.selectedAudio).value;
      screen.selectedAudio == Some(if before.uri != "" then before.(name := Rename(before.name)) else before)
  {
    var uri := screen.EditorFileUri();
    var args := editor.HandleSave(uri);
    screen.HandleSaveEdit(args.volume, args.speed, args.editedUri);
  }
}
