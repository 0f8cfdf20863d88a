# ThumVive story screen: the edit session

ThumVive keeps a diary of stories. Each story has a date, three styled text
fields (heading, place, thoughts), an ordered list of photos, an optional
video and an optional voice clip. `StoryController` is the screen that
creates, edits or views one story. Under its UIKit calls it is a small
sequential state machine. That state machine is what this project models:

- the story being edited;
- the remote records waiting to be deleted on the next update (one list for
  photos, one slot each for audio and video);
- the mode (`new`, `edit`, `view`);
- the recorder slot, the elapsed-time ticker and the microphone, save and
  edit buttons;
- the save button's enabled state, which is the session's "dirty" flag.

Every event the screen handles is a method of the class
`Controller.StoryController`. The premium entitlement, the record-permission
answers and the outcome of every remote call are passed in as arguments.

Modules:

- `StoryTypes`: the story value, its text fields, its attachments (a local
  asset plus an optional remote reference) and the modes.
- `Media`: the remote references held by a photo list, counted as a
  multiset, and removal of one photo by index.
- `Gates`: the pure decisions. These are the premium gates, the heading
  test, which remote call a save issues, which buttons each mode shows, and
  whether a press on the microphone leaves a recorder running.
- `Controller`: the imperative class. Its ghost invariant `Valid()` has two
  parts. `Consistent` says that no remote reference loaded with the story is
  lost or invented by local photo edits: each one is still on a photo or is
  pending deletion, exactly once. The audio and video slots only ever hold
  the reference loaded with the story, and never hold it both on the
  attachment and in the pending slot. `LayoutValid` says that outside the
  `view` mode the microphone is hidden exactly when the story has an audio
  clip, so in the code a recording is only started when it replaces no clip. Every event
  method preserves this invariant.
- The record-permission prompt is state of its own (`permissionPrompt`).
  When the permission is still undetermined, the press only prompts the user,
  and the recorder starts later, when the answer arrives
  (`RecordPermissionAnswered`). By then the press has usually ended.
- `Scenarios`: short sessions driven through the contracts alone.

Where the code differs from the screen's evident intent, the model follows
the code:

- the `view` mode also saves, through an update;
- the mutators carry no mode guard;
- the pending-deletion lists are never cleared (a successful save only
  dismisses the screen);
- the audio and video pending slots are overwritten only when the removed
  attachment had a remote reference.

## Model

| member | source | states |
|---|---|---|
| StoryTypes.Story.WithField | ThumVive/Managers/StoryController/StoryController.swift:700-715 | editing one field sets that field's (text, colour, font) triple and leaves the other fields, the date and the attachments unchanged |
| StoryTypes.EditChangesStoryIff | ThumVive/Managers/StoryController/StoryController.swift:701-719 | a text edit changes the story exactly when the edited field did not already hold the new triple, in both directions |
| Media.RefOf | ThumVive/Managers/StoryController/StoryController.swift:562-564 | a photo contributes its own reference when it was stored remotely, and nothing exactly when it was never stored |
| Media.RemoveAt | ThumVive/Managers/StoryController/StoryController.swift:566 | removing index i shortens the list by one and keeps the elements before and after i in order |
| Media.ReinsertRemoved | ThumVive/Managers/StoryController/StoryController.swift:566 | putting the removed element back at index i restores the original list |
| Media.RemovalConservesRefs | ThumVive/Managers/StoryController/StoryController.swift:561-569 | the references left on the photos, together with the removed photo's reference, are exactly the references before the removal |
| Media.DeletionConserves | ThumVive/Managers/StoryController/StoryController.swift:561-569 | removing a photo and appending its reference to the pending list keeps photo and pending references equal to the loaded ones |
| Media.AppendLocalConserves | ThumVive/Managers/StoryController/StoryController.swift:780-783 | appending a picked photo, which has no remote reference, keeps the references conserved |
| Gates.OpenGatesAgree | ThumVive/Managers/StoryController/StoryController.swift:571-572 | the editing cell's gate (line 572) and the read-only cell's gate (line 686) allow the same photos: index 0, or any index with the entitlement |
| Gates.SaveDispatch | ThumVive/Managers/StoryController/StoryController.swift:377-396 | a save issues no call exactly when the heading is missing or shorter than 3; otherwise one create in `new` and one update carrying the three pending-deletion values in the other modes, never a delete |
| Gates.ViewSavesLikeEdit | ThumVive/Managers/StoryController/StoryController.swift:379-381 | a save in `view` mode issues the same update as in `edit` mode |
| Gates.SetupVisibility | ThumVive/Managers/StoryController/StoryController.swift:92-114 | `view` hides save and microphone and shows edit; `new` and `edit` show save, hide edit, and hide the microphone exactly when the story has audio |
| Gates.RecordingStarts | ThumVive/Managers/StoryController/StoryController.swift:410-475 | a press leaves a recorder running before it ends only with the entitlement and a permission already granted; it always does so when premium, permission granted, session ready and recorder created; never without a session or recorder |
| Gates.AnswerStartsRecording | ThumVive/Managers/StoryController/StoryController.swift:436-472 | the answer to the permission prompt starts a recorder only on a yes with a recorder created; it does so whenever the session was ready at the press or is ready at the answer; never when it is ready at neither |
| Controller.VideoPlayerOutcome | ThumVive/Managers/StoryController/StoryController.swift:594-643 | playing a video shows the player, or an error exactly when the video is stored remotely and fetching its address fails |
| Media.CloudRefOf | ThumVive/Managers/StoryController/StoryController.swift:542-552 | an optional attachment has a reference exactly when it is present and stored remotely, and it is that attachment's reference |
| Media.AfterOptionalRemoval | ThumVive/Managers/StoryController/StoryController.swift:542-554 | the pending slot after a removal is the removed attachment's reference whenever it has one, and the slot's old value otherwise; it is empty only if it was empty before |
| Controller.PhotoDeletionKeepsConsistent | ThumVive/Managers/StoryController/StoryController.swift:561-569 | removing a photo and queueing its reference preserves the session invariant |
| Controller.PhotoAppendKeepsConsistent | ThumVive/Managers/StoryController/StoryController.swift:780-783 | appending a picked photo preserves the session invariant |
| Controller.VideoRemovalKeepsConsistent | ThumVive/Managers/StoryController/StoryController.swift:541-549 | clearing the video and moving its reference into the pending slot preserves the session invariant |
| Controller.AudioRemovalKeepsConsistent | ThumVive/Managers/StoryController/StoryController.swift:551-559 | clearing the audio and moving its reference into the pending slot preserves the session invariant |
| Controller.StoryController.VisibleMicrophoneMeansNoAudio | ThumVive/Managers/StoryController/StoryController.swift:98-105 | outside the `view` mode, a microphone that can be pressed means the story has no audio clip and so no stored audio reference that a recording could replace |
| Controller.StoryController.constructor | ThumVive/Managers/StoryController/StoryController.swift:41-63 | a session opens on the story in its mode with nothing pending, no recorder, no ticker, save disabled, and the buttons laid out for the mode; the invariant holds |
| Controller.StoryController.SetupView | ThumVive/Managers/StoryController/StoryController.swift:79-117 | the buttons become those of the current mode and audio presence, which restores the layout invariant whatever the buttons were; nothing else changes |
| Controller.StoryController.EditButtonAction | ThumVive/Managers/StoryController/StoryController.swift:505-509 | the mode becomes `edit` and the buttons are laid out again for `edit` |
| Controller.StoryController.UpdateStory | ThumVive/Managers/StoryController/StoryController.swift:213-229 | exactly one update carrying the story and the three pending-deletion values; success dismisses; failure shows an error and changes nothing else |
| Controller.StoryController.SaveNewStory | ThumVive/Managers/StoryController/StoryController.swift:231-250 | exactly one create of the story; success dismisses; failure shows an error and changes nothing else |
| Controller.StoryController.DeleteStory | ThumVive/Managers/StoryController/StoryController.swift:286-296 | exactly one delete of the story; success dismisses; failure shows an error and changes nothing else |
| Controller.StoryController.SaveButtonAction | ThumVive/Managers/StoryController/StoryController.swift:377-396 | the call issued is `SaveDispatch` of the current state; no call means a heading warning and no dismissal; otherwise the outcome decides between dismissal and an error; story, pending deletions and mode are untouched |
| Controller.StoryController.DeletePhoto | ThumVive/Managers/StoryController/StoryController.swift:561-569 | photo `number` is removed and the rest kept in order; the pending list gains that photo's reference at its end if it had one and is unchanged otherwise; save is enabled; the invariant is kept |
| Controller.StoryController.DeleteVideo | ThumVive/Managers/StoryController/StoryController.swift:541-549 | the video is cleared; the pending video slot takes its reference if it had one and keeps its old value otherwise; save is enabled; the invariant is kept |
| Controller.StoryController.DidTapDeleteAudioButton | ThumVive/Managers/StoryController/StoryController.swift:551-559 | the audio is cleared; the pending audio slot takes its reference if it had one and keeps its old value otherwise; save is enabled; the microphone is shown again |
| Controller.StoryController.DidPickPhoto | ThumVive/Managers/StoryController/StoryController.swift:774-789 | a picked photo is appended at the end as a local-only attachment and save is enabled; when no photo could be made nothing changes |
| Controller.StoryController.DidPickVideo | ThumVive/Managers/StoryController/StoryController.swift:743-768 | a copied video replaces the video with a local-only `video.mov` and save is enabled; when the copy fails nothing changes |
| Controller.StoryController.DidTapAddPhoto | ThumVive/Managers/StoryController/StoryController.swift:585-592 | the photo source sheet opens exactly when the photo list is empty or the user is premium; otherwise the subscriptions open |
| Controller.StoryController.DidTapPhotoNumber | ThumVive/Managers/StoryController/StoryController.swift:571-583 | photo `number` opens full-size when it is the first photo or the user is premium; otherwise the subscriptions open |
| Controller.StoryController.DidTapPhotoAtIndex | ThumVive/Managers/StoryController/StoryController.swift:685-694 | the tapped photo opens full-size unless it is a later photo and the user is not premium, in which case the subscriptions open |
| Controller.StoryController.DidTapAddVideo | ThumVive/Managers/StoryController/StoryController.swift:645-655 | without the entitlement only the subscriptions open; with it, the video source sheet opens when there is no video, and the video is played otherwise; the video source sheet opens only when there is no video |
| Controller.StoryController.DidTapVideo | ThumVive/Managers/StoryController/StoryController.swift:676-683 | without the entitlement only the subscriptions open; with it, the video is played if there is one, and nothing opens otherwise |
| Controller.StoryController.ShowVideoPlayer | ThumVive/Managers/StoryController/StoryController.swift:594-643 | nothing opens without a video; a stored video plays once its address is fetched and an error shows if the fetch fails; a local video plays directly |
| Controller.StoryController.DidTapDoneText | ThumVive/Managers/StoryController/StoryController.swift:700-722 | only the edited field's triple changes; save becomes enabled exactly when the story changed or it already was enabled, so an edit never disables it |
| Controller.StoryController.DidTapDoneDate | ThumVive/Managers/StoryController/StoryController.swift:727-731 | the date is replaced, everything else in the story is kept, and save is enabled |
| Controller.StoryController.FinishRecording | ThumVive/Managers/StoryController/StoryController.swift:324-338 | the recorder slot is always empty afterwards; on success the audio becomes the local-only `recording.m4a`, save is enabled and the microphone hidden; on failure story, save and buttons are unchanged |
| Controller.StoryController.StartRecording | ThumVive/Managers/StoryController/StoryController.swift:298-317 | a recorder is held exactly when it could be created; a failed creation finishes the recording unsuccessfully, leaving story, save and buttons unchanged |
| Controller.StoryController.MicrophoneTouchDown | ThumVive/Managers/StoryController/StoryController.swift:402-476 | without the entitlement only the subscriptions open and nothing else changes; with it the ticker starts, a denied permission shows a warning, and the recorder is requested as `RequestRecording` states |
| Controller.StoryController.RequestRecording | ThumVive/Managers/StoryController/StoryController.swift:410-475 | with the permission granted or denied, a recorder runs afterwards exactly when `RecordingStarts` holds; with it undetermined, the user is prompted, the recorder is left as it was when the session is ready and emptied otherwise, and a request waiting from an earlier press stays waiting |
| Controller.StoryController.RecordPermissionAnswered | ThumVive/Managers/StoryController/StoryController.swift:436-472 | the answer clears the prompt; on a yes a recorder runs exactly when `AnswerStartsRecording` holds, if the session was or is ready; on a no the recorder is emptied exactly when the session was ready at the press; without a prompt nothing changes; story, save and buttons are untouched |
| Controller.StoryController.MicrophoneTouchUpInside | ThumVive/Managers/StoryController/StoryController.swift:478-483 | without the entitlement nothing changes; with it the ticker stops, the recorder slot empties, and the recording is attached exactly when permission is granted |
| Controller.StoryController.MicrophoneTouchAbandoned | ThumVive/Managers/StoryController/StoryController.swift:485-503 | dragging outside, leaving or cancelling: with the entitlement the ticker stops and the recording finishes unsuccessfully, leaving the story unchanged; without it nothing changes |
| Controller.StoryController.AudioRecorderDidFinishRecording | ThumVive/Managers/StoryController/StoryController.swift:806-810 | an unsuccessful stop empties the recorder slot and leaves the story unchanged; a successful stop changes nothing |

## Left out

- UIKit presentation is reduced to a `Presented` value naming what opens. This covers alerts, action sheets, the image picker and camera set-up, table cells and reloads, HUDs, fonts, localized titles, the text-input and date-input screens and the table-view data source.
- The remote store is not modelled. `API.StoryModule` create, update, delete and `getVideoUrl` are each reduced to one success-or-failure argument, and the remote call is returned as a `RemoteCall` value. The asynchronous completion runs in the same step as the call.
- File I/O (copying the picked video, writing the fetched video, the documents directory) is reduced to the fixed file names `recording.m4a` and `video.mov`.
- AVFoundation is not modelled. The audio-session set-up, the permission-request paths and the recorder settings are reduced to four inputs: the permission status at the press, the user's later answer, whether the session could be set up, and whether the recorder could be created. The recorder itself is an active/empty flag.
- RequestRecording: when the permission is already granted or denied, the request callbacks go through the main queue right after the press begins. The model runs them within the press. A granted permission starts the recorder twice through two callbacks, and the model keeps only the resulting state. The permission status the answer sets is not stored; later events take it as an argument.
- DidPickVideo: the photo album reuses the picker that the video camera set to movies (lines 186-196 and 204-211), so after a camera video a photo pick can deliver a video that replaces `story.video` (743-759). The model, like the code, lets a picked video replace any video. In the code this never drops a cloud reference only because the video source sheet opens only without a video (`DidTapAddVideo`), so any stored video was removed, and its reference queued, before the picker was set to movies.
- RecordPermissionAnswered: the model shows, in `Scenarios.PressEndsBeforeAnswer`, that a press ending before the answer leaves a recorder running with the ticker stopped. Nothing in the code stops that recorder until the next press. Repeated presses before the answer share one prompt state. A request waiting from any of them is kept, and `Scenarios.SecondPressKeepsFirstRequest` shows that a yes then starts a recorder even when the later press and the answer find no session.
- DidTapDoneText: the change test of lines 701 and 717 compares a snapshot of the story with the edited story. The model takes `Story` to be a value type, so the snapshot is a copy. If it were a class, the snapshot would alias the story and the test would never fire. The type's declaration is not part of this model.
- FinishRecording: the declaration of `AudioModel` is not part of this model, and creating the audio attachment from the recorded file (329) is assumed never to fail; `story.audio` is optional, so the code would compile either way. Creating a video attachment (756) or a photo attachment (780) can fail, and `DidPickVideo` and `DidPickPhoto` model that failure. If `AudioModel(url:)` can fail, a successful recording leaves no clip while save is enabled and the microphone hidden (331-332), so `LayoutValid` would not be an invariant of the code.
- The model does not stop events from reaching a hidden button or a cell of the other mode. `LayoutValid` and `VisibleMicrophoneMeansNoAudio` show why, in the code, a recording never replaces a stored clip. A recording that did replace one would drop its reference, as lines 329 and 757 do.
- DeletePhoto: Swift traps on an out-of-range index at line 562. The model turns that crash into the precondition `0 <= number < |story.photos|`.
- DidTapPhotoNumber: Swift traps on an out-of-range index at line 574. The model makes this a precondition that applies only when the gate opens the photo.
- DeleteStory: on a failed delete the progress HUD is never hidden (lines 287 and 293-295), so the screen stays covered. A failed update or create does hide it (lines 225 and 245). HUDs are not modelled, so the three contracts read alike.
- The `Timer` ticker is a running/stopped flag. Its tick interval and the elapsed-time label formatting are left out.
- The recording view's visibility and the player being stopped when the screen disappears are left out.
- `rateApp`, StoreKit and the `Global.isRatePresented` flag, triggered after a successful create, are a foreign side effect and are left out.
- `closeButtonAction` and `deleteButtonAction` are left out. They only dismiss the screen or present the confirmation sheet; the deletion itself is `DeleteStory`.
- DidTapDoneText: the Swift `Story` equality, colours and dates are not defined in the modelled file. They are modelled as structural equality over opaque values.
- SaveButtonAction: the heading length counts characters of a sequence, not Swift's grapheme clusters.
- The initial enabled state of the save button comes from a storyboard that is not part of this model. It is taken to be disabled.
- MicrophoneTouchUpInside: the recording file is attached whenever permission is granted, even when no recorder was running. This is as the code does it, and the model states it as written.
