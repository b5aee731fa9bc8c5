# podcax client core in Dafny

This project models the decision logic of the podcax React Native client, an
app for sharing short audio posts. Each platform call is replaced by an
outcome parameter: a picker, recorder or sound call, a Firebase
authentication call, or a Firestore read or query. These include "resolved",
"threw", "document exists", "document missing" and "query returned these
documents". The current time stands in for `Date.now()` as a `now: nat`
parameter.

What is modelled, module by module:

- `EditRules` holds the pure rules of the create-post screen:
  - the playback clock `formatMillis`;
  - the "edited" rename applied when an edit is saved;
  - the names given to picked and recorded files.
- `EditScreen.CreatePostScreen` holds the create-post screen's state fields. Each handler is a method that updates them and returns the sound calls it makes and the alert it shows.
- `AudioEditor.AudioEditorModal` is the audio editor modal: load, unload and reset, play/pause, volume, speed and save. `EditFlow` connects the editor's save to the screen.
- `AuthService` covers:
  - `getFriendlyError`, the priority-ordered substring classifier;
  - a table-driven reference version of that classifier, proved equal to it;
  - the rethrow contract of `signUp`, `signIn`, `resetPassword` and `signOutUser`.
- `SignInPage`, `SignUpPage` and `ForgotPasswordPage` model the three authentication forms. Each button press is split in two: the press runs the field gate and starts the spinner, and the settle handles the service result.
- `Profile` and `UserProfile` model the two profile screens: category lists by account type, the starting category, the category filter and the resolution of the user name.
- `BottomNavbar` models the tab bar. `Onboarding` models the pager and `RootLayout` the start-up resolution of the account type. `AccountViews` relates the two views that read that type.
- `Search` models the user search:
  - JavaScript's `trim`;
  - the blank-query gate;
  - the username range query, proved to be a prefix match;
  - the `forEach` that collects the rows;
  - the "No users found." rule.

A few properties that follow from the code as written:

- Errors thrown by the service carry no `code`. So the forgot-password screen's code-specific messages are never shown (`ForgotPasswordPage.ResetFailureAlwaysDefault`). The "Invalid credentials" and "Something went wrong" fallbacks of the sign-in and sign-up screens are never shown either.
- On another user's profile, a missing `userId`, a missing document or a failed read leaves the selected category on "shared". The listener buttons shown in those cases do not include "shared" (`UserProfile.OpenUserProfile`).
- A stored user document with no `accountType` gets the Edit tab, which is meant for creators, but the listener profile categories (`AccountViews.MissingStoredType`).
- A query of white space alone issues no search, yet shows "No users found." (`Search.SearchScreen.HandleSearchChange`).
- The editor's save hands back the uri it was given. So an "edit" keeps the same file and only renames it (`EditFlow.SaveFromEditor`).

Where the code departs from the app's documented design, the model follows the code:

- Picking, recording or uploading drops the previous audio without unloading its sound.
- Volume, speed and seek positions are never clamped.
- `editFile` unloads the preview sound but keeps the reference to it in the selection.
- The editor's save performs no transformation of the audio.

## Model

| member | source | states |
|---|---|---|
| Strings.NatToString | app/edit.tsx:59 | a whole number is written in decimal, never empty, with a leading zero only for zero |
| Strings.DigitsValueOfNatToString | app/edit.tsx:247 | `parseInt` reads back a number written by `String(n)` as n |
| Strings.Includes | src/api/authService.ts:19-24 | `includes` is true exactly when the pattern occurs at some index of the key |
| Strings.ToLower | src/api/authService.ts:17 | lower-casing keeps the length and lower-cases each ASCII letter in place |
| EditRules.FormatMillis | app/edit.tsx:54-60 | the clock text reads back as minutes and seconds below 60 that make up the whole seconds of the input, with no leading zero in the minutes, which fixes the text exactly; NaN, zero and negative inputs stand for no seconds |
| EditRules.ClockReadsBack | app/edit.tsx:57-59 | minutes followed by a colon and seconds below 60 padded to two digits read back as those minutes and seconds |
| EditRules.FormatMillisNoSeconds | app/edit.tsx:55-56 | 0, -5, NaN and 999 ms all read "0:00" |
| EditRules.FormatMillisPadsSeconds | app/edit.tsx:57-59 | 65000 ms reads "1:05", the seconds padded to two digits |
| EditRules.FormatMillisNoHours | app/edit.tsx:58-59 | an hour reads "60:00" because minutes never fold into hours |
| EditRules.CountedDigits | app/edit.tsx:239-246 | a match of `^edited\((\d+)\)-` splits the name into the prefix, a run of digits and the rest |
| EditRules.CountedDigitsComplete | app/edit.tsx:239-246 | every way of reading a name as `edited(<digits>)-<rest>` is the match the regular expression finds |
| EditRules.Rename | app/edit.tsx:239-253 | a renamed name always has a form the rename recognises: the `edited-` prefix or an `edited(<digits>)-` counter, so the next save moves the counter |
| EditRules.RenameCounted | app/edit.tsx:246-248 | `edited(k)-rest` becomes `edited(k+1)-rest` with the rest unchanged |
| EditRules.RenameSimple | app/edit.tsx:249-250 | `edited-rest` becomes `edited(2)-rest` |
| EditRules.RenamePlain | app/edit.tsx:251-252 | a name in neither form gets the prefix `edited-` |
| EditRules.PlainUnlessLeadingE | app/edit.tsx:251-252 | a name that does not start with the letter e is in neither form |
| EditRules.RenameChain | app/edit.tsx:239-253 | saving a plain name n times gives `edited-<name>` once, then `edited(n)-<name>`, for example song.mp3, edited-song.mp3, edited(2)-song.mp3, edited(3)-song.mp3 |
| EditRules.RenameDropsLeadingZeros | app/edit.tsx:247-248 | the counter is reread by `parseInt`, so `edited(007)-` becomes `edited(8)-` |
| EditRules.PickedAudioName | app/edit.tsx:92 | a picked audio keeps a non-empty name of its own; otherwise it is named from the timestamp, so it always has a name |
| EditRules.PickedImageName | app/edit.tsx:115 | a picked image keeps a non-empty file name of its own; otherwise it is named from the timestamp, so it always has a name |
| EditRules.RecordingName | app/edit.tsx:145 | a recording's name starts with `recording-` |
| EditRules.StampedNameInjective | app/edit.tsx:92-145 | the timestamp can be read back from a name made of a prefix, the timestamp and a suffix |
| EditRules.FallbackNamesDistinct | app/edit.tsx:92-145 | names made from different timestamps differ, for picked audio, picked images and recordings alike |
| EditScreen.CreatePostScreen.constructor | app/edit.tsx:22-30 | the screen starts with nothing selected, an empty description, the editor closed and the player at zero |
| EditScreen.CreatePostScreen.OnPlaybackStatusUpdate | app/edit.tsx:62-83 | a status that is not loaded resets the player and drops the sound; a loaded one copies position, duration (0 if absent) and playing state; a finished one forces not playing and position 0, and rewinds and stops the sound |
| EditScreen.CreatePostScreen.PickAudio | app/edit.tsx:85-99 | the first picked file becomes the selection with id `now`, named `audio-<now>.mp3` when it has no name; a cancel or an empty pick changes nothing; a failure alerts |
| EditScreen.CreatePostScreen.PickImage | app/edit.tsx:101-122 | without permission nothing is picked and an alert is shown; otherwise the first picked image becomes the cover, named `image-<now>.jpg` when it has no file name |
| EditScreen.CreatePostScreen.StartRecording | app/edit.tsx:124-135 | a started recording becomes the current one; a failure only alerts |
| EditScreen.CreatePostScreen.StopRecording | app/edit.tsx:137-152 | nothing happens without a recording; a stop with a uri selects `recording-<now>.m4a` and clears the recording; a failure alerts and keeps the recording |
| EditScreen.CreatePostScreen.DeleteFile | app/edit.tsx:160-177 | the confirmed delete unloads the file's sound, clears the selection and the player, requests storage deletion only for a uri inside the documents directory, and only logs a failed deletion |
| EditScreen.CreatePostScreen.PlayAudio | app/edit.tsx:182-202 | a playing sound is paused, a paused one played, and a missing one created and attached; a failure alerts and leaves the state as it was |
| EditScreen.CreatePostScreen.EditFile | app/edit.tsx:204-212 | the preview sound is unloaded, the player reset and the editor opened |
| EditScreen.CreatePostScreen.OnScrub | app/edit.tsx:214-219 | without a sound nothing happens; otherwise it seeks, and the position is updated once the seek resolves |
| EditScreen.CreatePostScreen.UploadPost | app/edit.tsx:221-230 | an audio, an image and a description that is not exactly "" are all needed; a complete draft is cleared, an incomplete one left as it is |
| EditScreen.CreatePostScreen.HandleSaveEdit | app/edit.tsx:232-263 | with a selection and a non-empty edited uri, the selection keeps its id and sound, takes the uri and the renamed name; the editor always closes |
| EditScreen.CreatePostScreen.CloseEditor | app/edit.tsx:370 | closing the editor hides it |
| EditScreen.CreatePostScreen.EditorFileUri | app/edit.tsx:369 | the editor is given the selected file's uri |
| EditFlow.SaveFromEditor | app/edit.tsx:366-373 | saving in the editor keeps the selected file, its id and its sound; only the name advances one rename step, and only when the uri is not empty |
| AudioEditor.AudioEditorModal.constructor | src/components/AudioEditorModal.tsx:16-20 | the editor starts with no sound, volume 1, speed 1, loading and not playing |
| AudioEditor.AudioEditorModal.OnPlaybackStatusUpdate | src/components/AudioEditorModal.tsx:22-28 | statuses that are not loaded, or not finished, change nothing; a finished one stops playing and rewinds the sound the callback holds |
| AudioEditor.AudioEditorModal.LoadSound | src/components/AudioEditorModal.tsx:30-48 | the sound is requested at the current volume and speed and kept only when loaded; a failure alerts and closes the editor; loading always ends |
| AudioEditor.AudioEditorModal.UnloadSound | src/components/AudioEditorModal.tsx:50-59 | any sound is unloaded and the editor returns to its initial state, whatever the state before |
| AudioEditor.AudioEditorModal.OnVisibilityChange | src/components/AudioEditorModal.tsx:30-70 | when visible with a non-empty uri the file is requested at the current volume and speed, the sound kept only when loaded, and a failure alerts "Failed to load sound file." and asks to close; otherwise the sound is unloaded and the editor reset; the editor never plays without a sound |
| AudioEditor.AudioEditorModal.HandleVolumeChange | src/components/AudioEditorModal.tsx:72-77 | the volume is stored as given and forwarded only to an existing sound |
| AudioEditor.AudioEditorModal.HandleSpeedChange | src/components/AudioEditorModal.tsx:79-84 | the speed is stored as given and forwarded only to an existing sound as its rate |
| AudioEditor.AudioEditorModal.HandlePlayPause | src/components/AudioEditorModal.tsx:86-95 | without a sound nothing happens; otherwise a playing sound is paused and a paused one played, and the flag swaps only when that call succeeds |
| AudioEditor.AudioEditorModal.HandleSave | src/components/AudioEditorModal.tsx:97-100 | save reports the current volume and speed, and the file uri unchanged as the edited uri |
| AuthService.RawKey | src/api/authService.ts:12-17 | the key is the first non-empty of code, nested code, message and nested message, else "" |
| AuthService.FriendlyMessage | src/api/authService.ts:19-26 | the message is always one of the six fixed messages |
| AuthService.FriendlyError | src/api/authService.ts:11-27 | any thrown value maps to one of the six messages, never an empty one |
| AuthService.AnyIncluded | src/api/authService.ts:21 | a key matches a rule with several patterns when it contains any one of them |
| AuthService.FirstMatchIsFirst | src/api/authService.ts:19-24 | the first rule the key matches decides the message, whatever later rules say |
| AuthService.FirstMatchNone | src/api/authService.ts:26 | a key that matches no rule gets the fallback message |
| AuthService.FriendlyMessageFollowsRules | src/api/authService.ts:19-26 | the classifier equals the ordered rule table: invalid e-mail, unknown user, wrong password or invalid credential, e-mail in use, weak password, else the generic message |
| AuthService.CodeDecides | src/api/authService.ts:12-17 | a non-empty code decides the message, whatever the message and the nested error say |
| AuthService.CaseDoesNotMatter | src/api/authService.ts:17 | keys that differ only in letter case get the same message |
| AuthService.NoHyphenIsGeneric | src/api/authService.ts:19-26 | a key without a hyphen, such as a bare network message, gets the generic message |
| AuthService.EmptyErrorIsGeneric | src/api/authService.ts:12-26 | a thrown value with no code and no message gets the generic message |
| AuthService.Rethrown | src/api/authService.ts:43 | the rethrown error has no code and carries a non-empty friendly message |
| AuthService.SignUp | src/api/authService.ts:29-45 | sign-up succeeds with the new user's id only when account creation, the profile update and the document write all succeed; the document is written with id, e-mail, name and account type once the first two have succeeded; the first failure is rethrown in friendly form |
| AuthService.SignIn | src/api/authService.ts:47-56 | sign-in gives the user's id and the stored document, or none when the document is missing; a failed sign-in or read is rethrown in friendly form |
| AuthService.ResetPassword | src/api/authService.ts:58-64 | the reset resolves when sending resolves and otherwise rethrows in friendly form |
| AuthService.SignOutUser | src/api/authService.ts:66-72 | signing out resolves when the SDK call resolves and otherwise rethrows in friendly form |
| AuthService.RethrowStep | src/api/authService.ts:61-63 | a failed call is replaced by the friendly rethrow of its error |
| AuthService.ServiceErrorsAreFriendly | src/api/authService.ts:29-72 | whatever any of the four calls throws has no code and a non-empty message among the six |
| SignInPage.AccountTypeAfterSignIn | app/signin.tsx:27 | the stored account type when it is non-empty, else "listener" |
| SignInPage.SignInErrorText | app/signin.tsx:31 | the error's message, or "Invalid credentials" when it has none |
| SignInPage.SignInFailureShowsFriendlyMessage | app/signin.tsx:30-31 | a failed sign-in shows the friendly message of the SDK error, never the fallback |
| SignInPage.ButtonLabel | app/signin.tsx:79 | the button label is never empty and shows progress exactly while loading |
| SignInPage.SignInScreen.constructor | app/signin.tsx:13-16 | the form starts empty and not loading |
| SignInPage.SignInScreen.Press | app/signin.tsx:19-25 | an empty e-mail or password shows "Please fill in all fields" and makes no call; otherwise loading starts |
| SignInPage.SignInScreen.Settle | app/signin.tsx:24-34 | success shows the success message and opens /home after 800 ms with the account type; failure shows the error text; loading ends either way |
| SignUpPage.SignUpErrorText | app/signup.tsx:32 | the error's message, or "Something went wrong" when it has none |
| SignUpPage.SignUpFailureShowsFriendlyMessage | app/signup.tsx:31-32 | a failed sign-up shows the friendly message of the first failing step, never the fallback |
| SignUpPage.ButtonLabel | app/signup.tsx:93 | the button label is never empty and shows progress exactly while loading |
| SignUpPage.SignUpScreen.constructor | app/signup.tsx:12-17 | the form starts empty, not loading, with account type "listener" |
| SignUpPage.SignUpScreen.ChooseAccountType | app/signup.tsx:49-58 | the account type only ever becomes "listener" or "creator" |
| SignUpPage.SignUpScreen.Press | app/signup.tsx:21-26 | an empty e-mail, password or username shows "Please fill in all fields" and makes no call; otherwise loading starts |
| SignUpPage.SignUpScreen.Settle | app/signup.tsx:26-35 | success opens /home after 800 ms with the chosen account type, which is also the stored one; failure shows the error text; loading ends either way |
| ForgotPasswordPage.ResetErrorText | app/forgot-password.tsx:26-30 | the two known codes get their own messages and any other or missing code the default |
| ForgotPasswordPage.ResetFailureAlwaysDefault | app/forgot-password.tsx:26-29 | errors from the reset call carry no code, so every failure shows the default message |
| ForgotPasswordPage.ButtonLabel | app/forgot-password.tsx:56 | the button label is never empty and shows progress exactly while sending |
| ForgotPasswordPage.ForgotPasswordScreen.constructor | app/forgot-password.tsx:11-12 | the form starts empty and not loading |
| ForgotPasswordPage.ForgotPasswordScreen.Press | app/forgot-password.tsx:15-21 | an empty e-mail shows "Please enter your email address" and makes no call; otherwise loading starts |
| ForgotPasswordPage.ForgotPasswordScreen.Settle | app/forgot-password.tsx:20-33 | success shows the reset-link message and opens /signin after 1200 ms; failure shows the error text; loading ends either way |
| Profile.Categories | app/profile.tsx:229-231 | a creator gets shared, saved, liked and commented in that order, and anyone else the same without shared; no category repeats |
| Profile.InitialCategory | app/profile.tsx:233-235 | the starting category is the first button of the list: shared for a creator, saved otherwise |
| Profile.FilterByCategory | app/profile.tsx:260-262 | the shown posts are exactly those of the selected category |
| Profile.FilterDistributes | app/profile.tsx:260-262 | filtering keeps the original order: the filter of a concatenation is the concatenation of the filters |
| Profile.FilterIdempotent | app/profile.tsx:260-262 | filtering an already filtered list changes nothing |
| Profile.FilterKeepsAll | app/profile.tsx:260-262 | the filter keeps every post of the category, once per occurrence |
| Profile.ShowsEmptyState | app/profile.tsx:264-270 | "No posts found." shows exactly when no post has the selected category |
| Profile.DummyPostsOnePerCategory | app/profile.tsx:37-70 | the fixed posts hold one post per category, so the empty state never shows |
| Profile.ShownPosts | app/profile.tsx:259-262 | the grid of either profile screen holds exactly the fixed posts of the selected category, which is one post |
| Profile.ProfileName | app/profile.tsx:176-199 | the name is "Guest" without a user, the stored name or "Unnamed User" for an existing document, "Unknown User" for a missing one, and "Error loading user" on a failure |
| Profile.ProfileNameNonEmpty | app/profile.tsx:176-199 | the resolved name is never empty |
| Profile.ProfileScreen.constructor | app/profile.tsx:233-235 | the screen starts loading, on the starting category for its account type |
| Profile.ProfileScreen.FetchUserData | app/profile.tsx:176-199 | the name becomes the resolved name and loading ends on every path |
| Profile.ProfileScreen.SelectCategory | app/profile.tsx:304 | a tapped button becomes the selected category, which stays one of the buttons |
| UserProfile.UserProfileScreen.constructor | app/userprofile.tsx:159-166 | the screen starts loading, with no name and no type, on "shared" |
| UserProfile.UserProfileScreen.DisplayedCategories | app/userprofile.tsx:206-208 | the buttons are the creator list only for the type "creator" |
| UserProfile.UserProfileScreen.LoadUser | app/userprofile.tsx:168-204 | without a userId nothing is read and the screen shows "Error" for a listener; an existing document gives the stored name and type with defaults and selects shared or saved; a missing one gives "Unknown User" and "listener"; a failed read only sets the error name; loading ends on every path |
| UserProfile.UserProfileScreen.SelectCategory | app/userprofile.tsx:290 | a tapped button becomes the selected category |
| UserProfile.OpenUserProfile | app/userprofile.tsx:166-208 | after loading, the selected category is among the buttons exactly when a userId was given and its document exists; otherwise "shared" stays selected and the shared post is shown |
| BottomNavbar.DynamicTab | src/components/common/CustomBottomNavbar.tsx:17-20 | the second tab is Saved exactly for the type "listener" and Edit for any other value, absent included |
| BottomNavbar.Tabs | src/components/common/CustomBottomNavbar.tsx:22-27 | there are four tabs: Home, the dynamic tab, Profile and Search |
| BottomNavbar.Press | src/components/common/CustomBottomNavbar.tsx:38 | tapping a tab pushes exactly its route |
| BottomNavbar.AtMostOneActive | src/components/common/CustomBottomNavbar.tsx:32 | the routes are distinct, so at most one tab is active |
| BottomNavbar.DividerOnlyAfterProfile | src/components/common/CustomBottomNavbar.tsx:33 | the only divider follows the third tab, Profile |
| BottomNavbar.PressActivatesThatTab | src/components/common/CustomBottomNavbar.tsx:32-38 | on the route a tap pushes, that tab is active and no other |
| BottomNavbar.EditOnlyForNonListeners | src/components/common/CustomBottomNavbar.tsx:17-27 | the bar offers /edit exactly to non-listeners and /saved exactly to listeners |
| Onboarding.NextAction | app/index.tsx:32-38 | Next scrolls one slide on, and on the last slide replaces the route with /signup |
| Onboarding.SkipAction | app/index.tsx:40-42 | Skip scrolls to the last slide |
| Onboarding.DotAction | app/index.tsx:44-46 | a dot scrolls to its own slide |
| Onboarding.NextWalksSlides | app/index.tsx:32-38 | repeated Next presses visit the slides one by one without skipping any |
| Onboarding.NextFromStartReachesSignUp | app/index.tsx:32-38 | from the first slide, two presses reach the last slide, which shows "Get Started", and one more opens sign-up |
| Onboarding.SkipThenNextLeaves | app/index.tsx:40-42 | after Skip, Next opens sign-up |
| Onboarding.SlideKeys | src/utils/constants.ts:8-27 | there are three slides, keyed "1", "2" and "3" |
| Onboarding.OneDotHighlighted | app/index.tsx:65-69 | exactly the dot of the current slide is highlighted |
| Onboarding.GetStartedIffNextLeaves | app/index.tsx:73 | the button reads "Get Started" exactly when Next would leave the pager |
| Onboarding.OnboardingScreen.constructor | app/index.tsx:14 | the pager starts on the first slide |
| Onboarding.OnboardingScreen.HandleNext | app/index.tsx:32-38 | Next asks for the next slide or for /signup and leaves the index alone |
| Onboarding.OnboardingScreen.HandleSkip | app/index.tsx:40-42 | Skip asks for the last slide and leaves the index alone |
| Onboarding.OnboardingScreen.HandleDotPress | app/index.tsx:44-46 | a dot asks for its slide and leaves the index alone |
| Onboarding.OnboardingScreen.OnMomentumScrollEnd | app/index.tsx:57 | the settled page becomes the current index, the only change to it |
| RootLayout.ResolvedAccountType | app/_layout.tsx:31-47 | the stored type, unvalidated and possibly absent, for a signed-in user with a document; "listener" for no user, a missing document or a failed read |
| RootLayout.OnlyStoredTypeDiffers | app/_layout.tsx:31-47 | only a stored document can make the type anything but "listener" |
| RootLayout.RootLayoutState.constructor | app/_layout.tsx:17-18 | no type yet, and loading |
| RootLayout.RootLayoutState.OnAuthStateChanged | app/_layout.tsx:31-48 | each callback sets the resolved type, then ends loading |
| RootLayout.RootLayoutState.Render | app/_layout.tsx:53-65 | the spinner shows until the fonts are loaded and loading has ended; then the provider gets the resolved type |
| RootLayout.StartUp | app/_layout.tsx:30-65 | start-up shows the spinner, and after the first callback, once the fonts are loaded, the app with the resolved type |
| AccountViews.ViewsAgreeOnlyForKnownTypes | src/components/common/CustomBottomNavbar.tsx:17-20 | the Edit tab comes with the creator categories exactly when the type is "listener" or "creator" |
| AccountViews.MissingStoredType | app/_layout.tsx:35-37 | a stored document without a type gives the Edit tab and the listener categories |
| Search.Trim | app/search.tsx:33 | the trimmed text is a slice of the input with only white space before and after it, neither starts nor ends with white space, and is empty exactly for white space alone |
| Search.TrimUnique | app/search.tsx:33 | only one slice fits that description, so trimming removes exactly the white space at both ends and keeps inner white space |
| Search.IsBlank | app/search.tsx:33 | the search gate closes exactly for a query of white space alone, the empty query included |
| Search.QueryRange | app/search.tsx:42-46 | the range runs from the untrimmed text to the text followed by U+F8FF |
| Search.RangeIsPrefixMatch | app/search.tsx:44-45 | a username is in the range exactly when it starts with the untrimmed text, case-sensitively, and continues with a character below U+F8FF, with U+F8FF alone, or not at all |
| Search.ToUser | app/search.tsx:51 | a row holds the stored fields, with the stored uid overriding the document id when present |
| Search.StoredUserRowKeepsId | app/search.tsx:51 | for documents written by sign-up the row's uid is the document id |
| Search.CollectUsers | app/search.tsx:49-52 | one row per returned document, in order |
| Search.SearchScreen.constructor | app/search.tsx:27-29 | empty query, no results, not loading |
| Search.SearchScreen.SearchUsers | app/search.tsx:32-60 | a blank query clears the results without a query; any other sends the range on the untrimmed text, and the results become the rows, or none on a failure; loading ends false |
| Search.SearchScreen.Render | app/search.tsx:109-124 | the list area shows the spinner exactly while loading, the rows exactly when there are some, "No users found." exactly for no rows and a non-empty raw query, and nothing for an empty query |
| Search.SearchScreen.HandleSearchChange | app/search.tsx:62-65 | the query text is kept and searched; "No users found." shows for a query of white space alone and after a failed search |

## Left out

- Platform and backend calls are not modelled: expo-av sounds and recordings, the document and image pickers, file deletion, Firebase Auth, Firestore reads and writes, and the router. Each is an outcome parameter or a returned request. The model does not evaluate the range query on the server; it proves only what the range bounds admit.
- Asynchrony is not modelled: handlers run to completion one at a time. That rules out overlapping searches, loads racing unloads in the editor effect, and an `editFile` unload that is not awaited. For the same reason the editor effect's cleanup run is not modelled.
- EditScreen.CreatePostScreen.OnPlaybackStatusUpdate: reads the current selection. The source callback reads the selection captured when the sound was created, where it usually has no sound yet.
- AudioEditor.AudioEditorModal.OnPlaybackStatusUpdate: the sound the callback holds is the parameter `seen`. The closure's capture is not modelled.
- Some sound calls are not caught in the source, and their failures are not modelled. These are the rewind and stop at the end of playback (app/edit.tsx:80-81 and src/components/AudioEditorModal.tsx:26), neither of them awaited; `unloadAsync` in the delete, in `editFile` and in the editor (app/edit.tsx:162, 206 and src/components/AudioEditorModal.tsx:52); and `setVolumeAsync` and `setRateAsync` in the editor. A delete whose unload throws would stop before clearing the selection. The failure of seeking, playing and pausing is modelled.
- EditScreen.CreatePostScreen.PickAudio: takes one timestamp for both the name and the id. The source reads `Date.now()` twice, and the values may differ by a millisecond. StopRecording is treated the same way.
- EditRules.FormatMillis: covers NaN and whole milliseconds only. Fractional milliseconds are not modelled.
- `parseInt` is not bounded at 2^53: counters are unbounded naturals.
- Lower-casing in the error mapping is ASCII only. Unicode case mapping is not modelled.
- Volume and speed are opaque reals. Slider ranges and `toFixed` formatting are not modelled.
- The onboarding page index comes from rounding a scroll offset. That index is a parameter here, not computed.
- Dialogs other than the confirmed delete are not modelled: the delete confirmation and its cancel button, and the sign-out confirmation with `handleSignOut`, `openPost` and `closePost` on the profile screens.
- The fixed message texts of the upload alerts are left out; the alerts are named by their kind.
- The permission alert of PickImage has a title only. Its message is modelled as "".
- Pure UI is not modelled: the home and saved screens, post cards, like and save toggles, the share sheet, the snackbar's animation, the header, styles, and the account context, which only passes the resolved type through.
- The recording options and the audio mode passed to the recorder are not modelled. The recording permission answer is not inspected by the source, and the model does not inspect it either.
