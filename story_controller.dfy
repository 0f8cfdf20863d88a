/** The story screen's edit session: the story being edited, the remote
    records waiting to be deleted, the mode, the recorder slot and the
    buttons whose state the session drives. Every method below is one event
    the screen handles, with the entitlement, the permission answers and the
    outcome of remote calls passed in. */
module Controller {
  import opened StoryTypes
  import opened Media
  import opened Gates

  /** Warnings the screen shows. */
  datatype Warning = HeadingTooShort | MicrophoneDenied

  /** What an event puts in front of the user. */
  datatype Presented =
    | Nothing
    | Subscriptions
    | PhotoSourceSheet
    | VideoSourceSheet
    | VideoPlayer(video: Attachment)
    | FullPhoto(photo: Attachment)
    | WarningAlert(warning: Warning)
    | ErrorAlert

  /** The system prompt for the record permission: none outstanding, or
      shown with the answer awaited. `sessionWasReady` says whether the audio
      session could be set up at some press since the prompt appeared, in
      which case a second request also waits for the answer. */
  datatype PermissionPrompt = NoPrompt | Prompted(sessionWasReady: bool)
  {
    /** A request issued after a ready session waits for the answer. */
    predicate Waiting() {
      Prompted? && sessionWasReady
    }
  }

  /** The buttons outside the `view` mode: the microphone is hidden exactly
      when the story has an audio clip, so a recording never replaces one. */
  ghost predicate LayoutValid(mode: Mode, buttons: ButtonVisibility, story: Story) {
    mode != View ==> (buttons.microphoneHidden <==> story.audio.Some?)
  }

  /** A single attachment slot holds at most the reference loaded with the
      story, either on the attachment or pending deletion, never both. */
  ghost predicate SlotValid(held: Option<RecordRef>, pending: Option<RecordRef>, loaded: Option<RecordRef>) {
    && (held.Some? ==> held == loaded)
    && (pending.Some? ==> pending == loaded)
    && (held.None? || pending.None?)
  }

  /** No remote reference is lost or invented by local edits: every photo
      reference loaded with the story is either still on a photo or waiting
      for deletion, exactly once; the audio and video slots only ever hold the
      reference loaded with the story. */
  ghost predicate Consistent(story: Story, photosPending: seq<RecordRef>,
                             audioPending: Option<RecordRef>, videoPending: Option<RecordRef>,
                             loadedPhotos: multiset<RecordRef>,
                             loadedAudio: Option<RecordRef>, loadedVideo: Option<RecordRef>) {
    && PhotoRefsConserved(story.photos, photosPending, loadedPhotos)
    && SlotValid(CloudRefOf(story.audio), audioPending, loadedAudio)
    && SlotValid(CloudRefOf(story.video), videoPending, loadedVideo)
  }

  /** What playing `video` shows: the player, unless the video is stored
      remotely and fetching its address fails. */
  function VideoPlayerOutcome(video: Attachment, fetchSucceeds: bool): (shown: Presented)
    ensures shown == VideoPlayer(video) || shown == ErrorAlert
    ensures shown == ErrorAlert <==> video.cloudReference.Some? && !fetchSucceeds
  {
    if video.cloudReference.Some? && !fetchSucceeds then ErrorAlert else VideoPlayer(video)
  }

  /** Removing photo `i` and queueing its reference keeps the session consistent. */
  lemma PhotoDeletionKeepsConsistent(s: Story, p: seq<RecordRef>, a: Option<RecordRef>, v: Option<RecordRef>,
                                     lp: multiset<RecordRef>, la: Option<RecordRef>, lv: Option<RecordRef>, i: nat)
    requires Consistent(s, p, a, v, lp, la, lv)
    requires i < |s.photos|
    ensures Consistent(s.(photos := RemoveAt(s.photos, i)), p + RefOf(s.photos[i]), a, v, lp, la, lv)
  {
    DeletionConserves(s.photos, p, lp, i);
  }

  /** Appending a photo that was never stored remotely keeps the session consistent. */
  lemma PhotoAppendKeepsConsistent(s: Story, p: seq<RecordRef>, a: Option<RecordRef>, v: Option<RecordRef>,
                                   lp: multiset<RecordRef>, la: Option<RecordRef>, lv: Option<RecordRef>, asset: Asset)
    requires Consistent(s, p, a, v, lp, la, lv)
    ensures Consistent(s.(photos := s.photos + [Attachment(asset, None)]), p, a, v, lp, la, lv)
  {
    AppendLocalConserves(s.photos, p, lp, asset);
  }

  /** Clearing the video and moving its reference (if any) to the pending
      video slot keeps the session consistent. */
  lemma VideoRemovalKeepsConsistent(s: Story, p: seq<RecordRef>, a: Option<RecordRef>, v: Option<RecordRef>,
                                    lp: multiset<RecordRef>, la: Option<RecordRef>, lv: Option<RecordRef>)
    requires Consistent(s, p, a, v, lp, la, lv)
    ensures Consistent(s.(video := None), p, a, AfterOptionalRemoval(v, s.video), lp, la, lv)
  {
  }

  /** Clearing the audio clip and moving its reference (if any) to the
      pending audio slot keeps the session consistent. */
  lemma AudioRemovalKeepsConsistent(s: Story, p: seq<RecordRef>, a: Option<RecordRef>, v: Option<RecordRef>,
                                    lp: multiset<RecordRef>, la: Option<RecordRef>, lv: Option<RecordRef>)
    requires Consistent(s, p, a, v, lp, la, lv)
    ensures Consistent(s.(audio := None), p, AfterOptionalRemoval(a, s.audio), v, lp, la, lv)
  {
  }

  class StoryController {
    var story: Story
    var photoRecordsForDelete: seq<RecordRef>
    var audioRecordForDelete: Option<RecordRef>
    var videoRecordForDelete: Option<RecordRef>
    var mode: Mode
    /** An audio recorder is held (the recorder slot is not empty). */
    var recorderActive: bool
    /** The elapsed-time ticker is scheduled. */
    var timerRunning: bool
    /** The save button is enabled: the session's "dirty" flag. */
    var saveEnabled: bool
    var buttons: ButtonVisibility
    /** The screen has been dismissed and its delegate told the story was saved. */
    var dismissed: bool
    /** The record-permission prompt whose answer the session is waiting for. */
    var permissionPrompt: PermissionPrompt

    /** The remote references the story held when the session opened. */
    ghost var loadedPhotoRefs: multiset<RecordRef>
    ghost var loadedAudioRef: Option<RecordRef>
    ghost var loadedVideoRef: Option<RecordRef>

    /** The session's remote references are consistent with those loaded
        with the story. */
    ghost predicate Valid()
      reads this
    {
      && Consistent(story, photoRecordsForDelete, audioRecordForDelete, videoRecordForDelete,
                    loadedPhotoRefs, loadedAudioRef, loadedVideoRef)
      && LayoutValid(mode, buttons, story)
    }

    /** Outside the `view` mode, a microphone that can be pressed means the
        story has no audio clip, so a recording attached afterwards replaces
        no stored clip and loses no reference. */
    lemma VisibleMicrophoneMeansNoAudio()
      requires Valid()
      requires mode != View && !buttons.microphoneHidden
      ensures story.audio.None? && CloudRefOf(story.audio).None?
    {
    }

    /** Opens the screen on `story` in `mode` and lays out the buttons. */
    constructor (mode: Mode, story: Story)
      ensures Valid()
      ensures this.story == story && this.mode == mode
      ensures photoRecordsForDelete == [] && audioRecordForDelete == None && videoRecordForDelete == None
      ensures !recorderActive && !timerRunning && !saveEnabled && !dismissed && permissionPrompt == NoPrompt
      ensures buttons == SetupVisibility(mode, story.audio.Some?)
    {
      this.story := story;
      this.mode := mode;
      photoRecordsForDelete := [];
      audioRecordForDelete := None;
      videoRecordForDelete := None;
      recorderActive := false;
      timerRunning := false;
      saveEnabled := false;
      dismissed := false;
      permissionPrompt := NoPrompt;
      buttons := SetupVisibility(mode, story.audio.Some?);
      loadedPhotoRefs := RefBag(story.photos);
      loadedAudioRef := CloudRefOf(story.audio);
      loadedVideoRef := CloudRefOf(story.video);
    }

    /** Lays out the save, microphone and edit buttons for the current mode;
        this restores the button layout whatever it was before. */
    method SetupView()
      requires Consistent(story, photoRecordsForDelete, audioRecordForDelete, videoRecordForDelete,
                          loadedPhotoRefs, loadedAudioRef, loadedVideoRef)
      modifies this`buttons
      ensures Valid()
      ensures buttons == SetupVisibility(mode, story.audio.Some?)
    {
      buttons := SetupVisibility(mode, story.audio.Some?);
    }

    /** The edit button switches the read-only screen to editing. */
    method EditButtonAction()
      requires Valid()
      modifies this`mode, this`buttons
      ensures Valid()
      ensures mode == Edit && buttons == SetupVisibility(Edit, story.audio.Some?)
    {
      mode := Edit;
      SetupView();
    }

    // ---- Save and delete ----

    /** Sends the story and the pending deletions to the remote store; on
        success the screen is dismissed, on failure an error is shown and
        nothing else changes. */
    method UpdateStory(succeeds: bool) returns (call: RemoteCall, shown: Presented)
      requires Valid()
      modifies this`dismissed
      ensures Valid()
      ensures call == Update(story, photoRecordsForDelete, audioRecordForDelete, videoRecordForDelete)
      ensures succeeds ==> dismissed && shown == Nothing
      ensures !succeeds ==> dismissed == old(dismissed) && shown == ErrorAlert
    {
      call := Update(story, photoRecordsForDelete, audioRecordForDelete, videoRecordForDelete);
      if succeeds {
        dismissed := true;
        shown := Nothing;
      } else {
        shown := ErrorAlert;
      }
    }

    /** Creates the story in the remote store; success dismisses the screen,
        failure shows an error and changes nothing. */
    method SaveNewStory(succeeds: bool) returns (call: RemoteCall, shown: Presented)
      requires Valid()
      modifies this`dismissed
      ensures Valid()
      ensures call == Create(story)
      ensures succeeds ==> dismissed && shown == Nothing
      ensures !succeeds ==> dismissed == old(dismissed) && shown == ErrorAlert
    {
      call := Create(story);
      if succeeds {
        dismissed := true;
        shown := Nothing;
      } else {
        shown := ErrorAlert;
      }
    }

    /** Deletes the story from the remote store; success dismisses the screen,
        failure shows an error and changes nothing. */
    method DeleteStory(succeeds: bool) returns (call: RemoteCall, shown: Presented)
      requires Valid()
      modifies this`dismissed
      ensures Valid()
      ensures call == Delete(story)
      ensures succeeds ==> dismissed && shown == Nothing
      ensures !succeeds ==> dismissed == old(dismissed) && shown == ErrorAlert
    {
      call := Delete(story);
      if succeeds {
        dismissed := true;
        shown := Nothing;
      } else {
        shown := ErrorAlert;
      }
    }

    /** The save button: a heading of fewer than three characters only shows
        a warning; otherwise one create (mode `new`) or one update (modes
        `edit` and `view`) is issued, with `succeeds` its outcome. */
    method SaveButtonAction(succeeds: bool) returns (call: Option<RemoteCall>, shown: Presented)
      requires Valid()
      modifies this`dismissed
      ensures Valid()
      ensures call == SaveDispatch(mode, story, photoRecordsForDelete, audioRecordForDelete, videoRecordForDelete)
      ensures call.None? ==> shown == WarningAlert(HeadingTooShort) && dismissed == old(dismissed)
      ensures call.Some? && succeeds ==> dismissed && shown == Nothing
      ensures call.Some? && !succeeds ==> dismissed == old(dismissed) && shown == ErrorAlert
    {
      if HeadingAccepted(story.heading.text) {
        var issued: RemoteCall;
        match mode {
          case Edit =>
            issued, shown := UpdateStory(succeeds);
          case View =>
            issued, shown := UpdateStory(succeeds);
          case New =>
            issued, shown := SaveNewStory(succeeds);
        }
        call := Some(issued);
      } else {
        call := None;
        shown := WarningAlert(HeadingTooShort);
      }
    }

    // ---- Attachments ----

    /** Removes photo `number`; its remote reference, if any, is queued for deletion. */
    method DeletePhoto(number: int)
      requires Valid()
      requires 0 <= number < |story.photos|
      modifies this`story, this`photoRecordsForDelete, this`saveEnabled
      ensures Valid()
      ensures story == old(story).(photos := RemoveAt(old(story.photos), number))
      ensures photoRecordsForDelete == old(photoRecordsForDelete) + RefOf(old(story.photos[number]))
      ensures saveEnabled
    {
      var removed := story.photos[number];
      PhotoDeletionKeepsConsistent(story, photoRecordsForDelete, audioRecordForDelete, videoRecordForDelete,
                                   loadedPhotoRefs, loadedAudioRef, loadedVideoRef, number);
      photoRecordsForDelete := photoRecordsForDelete + RefOf(removed);
      story := story.(photos := RemoveAt(story.photos, number));
      saveEnabled := true;
    }

    /** Removes the video; its remote reference, if any, becomes the pending video deletion. */
    method DeleteVideo()
      requires Valid()
      modifies this`story, this`videoRecordForDelete, this`saveEnabled
      ensures Valid()
      ensures story == old(story).(video := None)
      ensures old(story.video).Some? && old(story.video).value.cloudReference.Some? ==>
                videoRecordForDelete == old(story.video).value.cloudReference
      ensures !(old(story.video).Some? && old(story.video).value.cloudReference.Some?) ==>
                videoRecordForDelete == old(videoRecordForDelete)
      ensures saveEnabled
    {
      VideoRemovalKeepsConsistent(story, photoRecordsForDelete, audioRecordForDelete, videoRecordForDelete,
                                  loadedPhotoRefs, loadedAudioRef, loadedVideoRef);
      videoRecordForDelete := AfterOptionalRemoval(videoRecordForDelete, story.video);
      story := story.(video := None);
      saveEnabled := true;
    }

    /** Removes the audio clip; its remote reference, if any, becomes the
        pending audio deletion, and the microphone is shown again. */
    method DidTapDeleteAudioButton()
      requires Valid()
      modifies this`story, this`audioRecordForDelete, this`saveEnabled, this`buttons
      ensures Valid()
      ensures story == old(story).(audio := None)
      ensures old(story.audio).Some? && old(story.audio).value.cloudReference.Some? ==>
                audioRecordForDelete == old(story.audio).value.cloudReference
      ensures !(old(story.audio).Some? && old(story.audio).value.cloudReference.Some?) ==>
                audioRecordForDelete == old(audioRecordForDelete)
      ensures saveEnabled && buttons == old(buttons).(microphoneHidden := false)
    {
      AudioRemovalKeepsConsistent(story, photoRecordsForDelete, audioRecordForDelete, videoRecordForDelete,
                                  loadedPhotoRefs, loadedAudioRef, loadedVideoRef);
      audioRecordForDelete := AfterOptionalRemoval(audioRecordForDelete, story.audio);
      story := story.(audio := None);
      saveEnabled := true;
      buttons := buttons.(microphoneHidden := false);
    }

    /** The image picker returned a photo; `photo` is absent when it could
        not be turned into a photo attachment. */
    method DidPickPhoto(photo: Option<Asset>)
      requires Valid()
      modifies this`story, this`saveEnabled
      ensures Valid()
      ensures photo.Some? ==>
                story == old(story).(photos := old(story.photos) + [Attachment(photo.value, None)]) && saveEnabled
      ensures photo.None? ==> story == old(story) && saveEnabled == old(saveEnabled)
    {
      if photo.Some? {
        PhotoAppendKeepsConsistent(story, photoRecordsForDelete, audioRecordForDelete, videoRecordForDelete,
                                   loadedPhotoRefs, loadedAudioRef, loadedVideoRef, photo.value);
        story := story.(photos := story.photos + [Attachment(photo.value, None)]);
        saveEnabled := true;
      }
    }

    /** The picker returned a video; `copied` says whether it was read, copied
        to the video file and turned into a video attachment. */
    method DidPickVideo(copied: bool)
      requires Valid()
      modifies this`story, this`saveEnabled
      ensures Valid()
      ensures copied ==> story == old(story).(video := Some(Attachment(VideoFile, None))) && saveEnabled
      ensures !copied ==> story == old(story) && saveEnabled == old(saveEnabled)
    {
      if copied {
        story := story.(video := Some(Attachment(VideoFile, None)));
        saveEnabled := true;
      }
    }

    // ---- Entitlement gates (these change no state) ----

    method DidTapAddPhoto(isPremium: bool) returns (shown: Presented)
      ensures shown == PhotoSourceSheet <==> AddPhotoAllowed(|story.photos|, isPremium)
      ensures shown == PhotoSourceSheet || shown == Subscriptions
    {
      if |story.photos| == 0 || isPremium {
        shown := PhotoSourceSheet;
      } else {
        shown := Subscriptions;
      }
    }

    /** A tap on photo `number` in the editing cell. */
    method DidTapPhotoNumber(number: int, isPremium: bool) returns (shown: Presented)
      requires EditCellOpenAllowed(number, isPremium) ==> 0 <= number < |story.photos|
      ensures EditCellOpenAllowed(number, isPremium) ==> shown == FullPhoto(story.photos[number])
      ensures !EditCellOpenAllowed(number, isPremium) ==> shown == Subscriptions
    {
      if number == 0 || isPremium {
        shown := FullPhoto(story.photos[number]);
      } else {
        shown := Subscriptions;
      }
    }

    /** A tap on `photo`, shown at `index`, in the read-only cell. */
    method DidTapPhotoAtIndex(photo: Attachment, index: int, isPremium: bool) returns (shown: Presented)
      ensures ViewCellOpenAllowed(index, isPremium) ==> shown == FullPhoto(photo)
      ensures !ViewCellOpenAllowed(index, isPremium) ==> shown == Subscriptions
    {
      if index > 0 && !isPremium {
        shown := Subscriptions;
      } else {
        shown := FullPhoto(photo);
      }
    }

    /** The video slot of the editing cell: picking a video or playing the
        present one; `fetchSucceeds` is the outcome of fetching a stored
        video's address. */
    method DidTapAddVideo(isPremium: bool, fetchSucceeds: bool) returns (shown: Presented)
      ensures !isPremium <==> shown == Subscriptions
      ensures isPremium && story.video.None? ==> shown == VideoSourceSheet
      ensures shown == VideoSourceSheet ==> story.video.None?
      ensures isPremium && story.video.Some? ==> shown == VideoPlayerOutcome(story.video.value, fetchSucceeds)
    {
      if isPremium {
        if story.video.None? {
          shown := VideoSourceSheet;
        } else {
          shown := ShowVideoPlayer(fetchSucceeds);
        }
      } else {
        shown := Subscriptions;
      }
    }

    /** The video of the read-only cell; the player opens only when there is a video. */
    method DidTapVideo(isPremium: bool, fetchSucceeds: bool) returns (shown: Presented)
      ensures !isPremium <==> shown == Subscriptions
      ensures isPremium && story.video.Some? ==> shown == VideoPlayerOutcome(story.video.value, fetchSucceeds)
      ensures isPremium && story.video.None? ==> shown == Nothing
    {
      if isPremium {
        shown := ShowVideoPlayer(fetchSucceeds);
      } else {
        shown := Subscriptions;
      }
    }

    /** Plays the story's video, if it has one. A stored video is played
        once its address has been fetched, and an error is shown when the
        fetch fails; a video that was never stored is played directly. */
    method ShowVideoPlayer(fetchSucceeds: bool) returns (shown: Presented)
      ensures story.video.None? ==> shown == Nothing
      ensures story.video.Some? ==> shown == VideoPlayerOutcome(story.video.value, fetchSucceeds)
      ensures shown == ErrorAlert <==> story.video.Some? && story.video.value.cloudReference.Some? && !fetchSucceeds
    {
      if story.video.Some? && story.video.value.cloudReference.Some? {
        shown := if fetchSucceeds then VideoPlayer(story.video.value) else ErrorAlert;
      } else if story.video.Some? {
        shown := VideoPlayer(story.video.value);
      } else {
        shown := Nothing;
      }
    }

    // ---- Field edits ----

    /** The text-input screen finished editing field `kind`. */
    method DidTapDoneText(text: string, kind: FieldKind, color: Color, fontNumber: int)
      requires Valid()
      modifies this`story, this`saveEnabled
      ensures Valid()
      ensures story == old(story).WithField(kind, TextField(Some(text), color, fontNumber))
      ensures saveEnabled <==> old(saveEnabled) || story != old(story)
    {
      var oldStory := story;
      story := story.WithField(kind, TextField(Some(text), color, fontNumber));
      if oldStory != story {
        saveEnabled := true;
      }
    }

    /** The date-input screen finished. */
    method DidTapDoneDate(date: Date)
      requires Valid()
      modifies this`story, this`saveEnabled
      ensures Valid()
      ensures story == old(story).(date := date) && saveEnabled
    {
      story := story.(date := date);
      saveEnabled := true;
    }

    // ---- Recording ----

    /** Stops and drops the recorder; on success the recording file becomes
        the story's audio clip and the microphone is hidden. */
    method FinishRecording(success: bool)
      requires Valid()
      modifies this`recorderActive, this`story, this`saveEnabled, this`buttons
      ensures Valid()
      ensures !recorderActive
      ensures success ==> story == old(story).(audio := Some(Attachment(RecordingFile, None)))
                          && saveEnabled && buttons == old(buttons).(microphoneHidden := true)
      ensures !success ==> story == old(story) && saveEnabled == old(saveEnabled) && buttons == old(buttons)
    {
      recorderActive := false;
      if success {
        story := story.(audio := Some(Attachment(RecordingFile, None)));
        saveEnabled := true;
        buttons := buttons.(microphoneHidden := true);
        assert story.photos == old(story.photos);
      }
    }

    /** Creates the recorder on the recording file and starts it; when the
        recorder cannot be created the recording is finished unsuccessfully. */
    method StartRecording(recorderCreated: bool)
      requires Valid()
      modifies this`recorderActive, this`story, this`saveEnabled, this`buttons
      ensures Valid()
      ensures recorderActive == recorderCreated
      ensures story == old(story) && saveEnabled == old(saveEnabled) && buttons == old(buttons)
    {
      if recorderCreated {
        recorderActive := true;
      } else {
        FinishRecording(false);
      }
    }

    /** A press on the microphone. Without the entitlement it only opens the
        subscriptions. Otherwise the ticker starts, a denied permission is
        reported, and the recorder is requested. */
    method MicrophoneTouchDown(isPremium: bool, permission: RecordPermission,
                               sessionReady: bool, recorderCreated: bool) returns (shown: Presented)
      requires Valid()
      modifies this`timerRunning, this`recorderActive, this`story, this`saveEnabled, this`buttons,
               this`permissionPrompt
      ensures Valid()
      ensures !isPremium ==> shown == Subscriptions
      ensures isPremium ==> shown == (if permission == Denied then WarningAlert(MicrophoneDenied) else Nothing)
      ensures timerRunning == (isPremium || old(timerRunning))
      ensures !isPremium ==> recorderActive == old(recorderActive) && permissionPrompt == old(permissionPrompt)
      ensures isPremium && permission != Undetermined ==>
                recorderActive == RecordingStarts(isPremium, permission, sessionReady, recorderCreated)
                && permissionPrompt == old(permissionPrompt)
      ensures isPremium && permission == Undetermined ==>
                recorderActive == (sessionReady && old(recorderActive))
                && permissionPrompt == Prompted(sessionReady || old(permissionPrompt).Waiting())
      ensures story == old(story) && saveEnabled == old(saveEnabled) && buttons == old(buttons)
    {
      if !isPremium {
        shown := Subscriptions;
        return;
      }
      timerRunning := true;
      shown := if permission == Denied then WarningAlert(MicrophoneDenied) else Nothing;
      RequestRecording(permission, sessionReady, recorderCreated);
    }

    /** Sets the audio session up and asks for the recorder. With the
        permission already granted or denied the recorder runs exactly when
        the session is ready, the permission granted and the recorder
        created, and the recording is finished unsuccessfully otherwise. With
        the permission undetermined the user is prompted and the recorder
        waits for the answer; only a session that cannot be set up finishes
        the recording at once. */
    method RequestRecording(permission: RecordPermission, sessionReady: bool, recorderCreated: bool)
      requires Valid()
      modifies this`recorderActive, this`story, this`saveEnabled, this`buttons, this`permissionPrompt
      ensures Valid()
      ensures permission != Undetermined ==>
                recorderActive == RecordingStarts(true, permission, sessionReady, recorderCreated)
                && permissionPrompt == old(permissionPrompt)
      ensures permission == Undetermined ==>
                recorderActive == (sessionReady && old(recorderActive))
                && permissionPrompt == Prompted(sessionReady || old(permissionPrompt).Waiting())
      ensures story == old(story) && saveEnabled == old(saveEnabled) && buttons == old(buttons)
    {
      if permission == Undetermined {
        permissionPrompt := Prompted(sessionReady || permissionPrompt.Waiting());
        if !sessionReady {
          FinishRecording(false);
        }
      } else if sessionReady && permission == Granted {
        StartRecording(recorderCreated);
      } else {
        FinishRecording(false);
      }
    }

    /** The user answered the permission prompt. Every request waiting for
        the answer now runs, whatever has happened to the press meanwhile: on
        a yes the recorder starts, on a no the request issued after the
        session was set up finishes the recording unsuccessfully. Without an
        outstanding prompt nothing is waiting and nothing changes. */
    method RecordPermissionAnswered(allowed: bool, sessionReady: bool, recorderCreated: bool)
      requires Valid()
      modifies this`recorderActive, this`story, this`saveEnabled, this`buttons, this`permissionPrompt
      ensures Valid()
      ensures permissionPrompt == NoPrompt
      ensures old(permissionPrompt) == NoPrompt ==> recorderActive == old(recorderActive)
      ensures old(permissionPrompt).Prompted? && allowed ==>
                recorderActive ==
                  if old(permissionPrompt).sessionWasReady || sessionReady
                  then AnswerStartsRecording(allowed, old(permissionPrompt).sessionWasReady, sessionReady, recorderCreated)
                  else old(recorderActive)
      ensures old(permissionPrompt).Prompted? && !allowed ==>
                recorderActive == (!old(permissionPrompt).sessionWasReady && old(recorderActive))
      ensures story == old(story) && saveEnabled == old(saveEnabled) && buttons == old(buttons)
    {
      var prompt := permissionPrompt;
      permissionPrompt := NoPrompt;
      if prompt.Prompted? {
        if allowed {
          if prompt.sessionWasReady || sessionReady {
            StartRecording(recorderCreated);
          }
        } else if prompt.sessionWasReady {
          FinishRecording(false);
        }
      }
    }

    /** Ends a press: only with the entitlement, the ticker stops and the
        recording is finished, successfully exactly when record permission
        is granted. */
    method MicrophoneTouchUpInside(isPremium: bool, permissionGranted: bool)
      requires Valid()
      modifies this`timerRunning, this`recorderActive, this`story, this`saveEnabled, this`buttons
      ensures Valid()
      ensures timerRunning == (!isPremium && old(timerRunning))
      ensures recorderActive == (!isPremium && old(recorderActive))
      ensures !isPremium ==> story == old(story) && saveEnabled == old(saveEnabled) && buttons == old(buttons)
      ensures isPremium && permissionGranted ==>
                story == old(story).(audio := Some(Attachment(RecordingFile, None)))
                && saveEnabled && buttons == old(buttons).(microphoneHidden := true)
      ensures isPremium && !permissionGranted ==>
                story == old(story) && saveEnabled == old(saveEnabled) && buttons == old(buttons)
    {
      if !isPremium {
        return;
      }
      timerRunning := false;
      FinishRecording(permissionGranted);
    }

    /** Dragging outside the microphone, leaving it, or a cancelled touch all
        abandon the recording. */
    method MicrophoneTouchAbandoned(isPremium: bool)
      requires Valid()
      modifies this`timerRunning, this`recorderActive, this`story, this`saveEnabled, this`buttons
      ensures Valid()
      ensures timerRunning == (!isPremium && old(timerRunning))
      ensures recorderActive == (!isPremium && old(recorderActive))
      ensures story == old(story) && saveEnabled == old(saveEnabled) && buttons == old(buttons)
    {
      if !isPremium {
        return;
      }
      timerRunning := false;
      FinishRecording(false);
    }

    /** The recorder reports that it stopped; an unsuccessful stop finishes
        the recording unsuccessfully (the ticker is left running). */
    method AudioRecorderDidFinishRecording(successfully: bool)
      requires Valid()
      modifies this`recorderActive, this`story, this`saveEnabled, this`buttons
      ensures Valid()
      ensures recorderActive == (successfully && old(recorderActive))
      ensures story == old(story) && saveEnabled == old(saveEnabled) && buttons == old(buttons)
    {
      if !successfully {
        FinishRecording(false);
      }
    }
  }
}
