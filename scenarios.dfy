/** Short sessions driven through the controller's contracts alone, showing
    what a caller of the screen can rely on. */
module Scenarios {
  import opened StoryTypes
  import opened Media
  import opened Gates
  import opened Controller

  /** A new story with a two-character heading: the save is refused with a
      warning and no remote call, and the screen stays open. */
  method ShortHeadingRefused(date: Date, color: Color)
  {
    var blank := TextField(None, color, 0);
    var c := new StoryController(New, Story(date, blank, blank, blank, [], None, None));
    c.DidTapDoneText("Hi", Heading, color, 0);
    assert c.saveEnabled;
    var call, shown := c.SaveButtonAction(true);
    assert call == None && shown == WarningAlert(HeadingTooShort) && !c.dismissed;
  }

  /** A new story with a four-character heading is saved through exactly one
      create, which dismisses the screen. */
  method NewStorySavedByCreate(date: Date, color: Color)
  {
    var blank := TextField(None, color, 0);
    var c := new StoryController(New, Story(date, blank, blank, blank, [], None, None));
    c.DidTapDoneText("Hike", Heading, color, 0);
    var call, shown := c.SaveButtonAction(true);
    assert call == Some(Create(c.story)) && shown == Nothing && c.dismissed;
  }

  /** Editing a stored story: removing its stored photo queues that photo's
      record for deletion and leaves the heading alone. */
  method RemoveStoredPhoto(date: Date, color: Color, r1: RecordRef)
  {
    var heading := TextField(Some("Hike"), color, 0);
    var blank := TextField(None, color, 0);
    var stored := Story(date, heading, blank, blank, [Attachment(PickedImage(1), Some(r1))], None, None);
    var c := new StoryController(Edit, stored);
    c.DeletePhoto(0);
    assert c.photoRecordsForDelete == [r1] && c.story.photos == [];
    assert c.story.heading == heading && c.saveEnabled;
  }

  /** A failed update carries the queued deletion and leaves the screen open
      with the deletion still queued. */
  method FailedUpdateKeepsPending(c: StoryController, r1: RecordRef)
    requires c.Valid() && c.mode == Edit && c.story.heading.text == Some("Hike")
    requires c.photoRecordsForDelete == [r1] && !c.dismissed
    modifies c
  {
    var call, shown := c.SaveButtonAction(false);
    assert call == Some(Update(c.story, [r1], c.audioRecordForDelete, c.videoRecordForDelete));
    assert shown == ErrorAlert && c.photoRecordsForDelete == [r1] && !c.dismissed;
  }

  /** Without the entitlement a press on the microphone starts nothing. */
  method RecordingNeedsEntitlement(date: Date, color: Color)
  {
    var blank := TextField(None, color, 0);
    var c := new StoryController(New, Story(date, blank, blank, blank, [], None, None));
    var shown := c.MicrophoneTouchDown(false, Granted, true, true);
    assert shown == Subscriptions && !c.recorderActive && !c.timerRunning;
    shown := c.MicrophoneTouchDown(true, Granted, true, true);
    assert c.recorderActive && c.timerRunning;
    c.MicrophoneTouchAbandoned(true);
    assert !c.recorderActive && c.story.audio == None;
  }

  /** The first use of the microphone: the permission prompt interrupts the
      press, so the press is over before the user answers; the yes then
      starts a recorder that keeps running with the ticker stopped. */
  method PressEndsBeforeAnswer(date: Date, color: Color)
  {
    var blank := TextField(None, color, 0);
    var c := new StoryController(New, Story(date, blank, blank, blank, [], None, None));
    var shown := c.MicrophoneTouchDown(true, Undetermined, true, true);
    assert shown == Nothing && c.timerRunning && !c.recorderActive;
    c.MicrophoneTouchAbandoned(true);
    assert !c.timerRunning && !c.recorderActive;
    c.RecordPermissionAnswered(true, true, true);
    assert c.recorderActive && !c.timerRunning && c.story.audio == None;
  }

  /** Two presses before the answer: the request the first press issued
      after setting the session up still waits, so a yes starts a recorder
      even though the session cannot be set up at the second press or at
      the answer. */
  method SecondPressKeepsFirstRequest(date: Date, color: Color)
  {
    var blank := TextField(None, color, 0);
    var c := new StoryController(New, Story(date, blank, blank, blank, [], None, None));
    var shown := c.MicrophoneTouchDown(true, Undetermined, true, true);
    c.MicrophoneTouchAbandoned(true);
    shown := c.MicrophoneTouchDown(true, Undetermined, false, true);
    assert c.permissionPrompt == Prompted(true);
    c.MicrophoneTouchAbandoned(true);
    c.RecordPermissionAnswered(true, false, true);
    assert c.recorderActive && !c.timerRunning;
  }
}
