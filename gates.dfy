/** The pure decisions the story screen takes: which slots the premium
    entitlement unlocks, when a save is accepted and which remote call it
    issues, and which buttons each mode shows. */
module Gates {
  import opened StoryTypes

  /** The shortest heading a save accepts. */
  const MinHeadingLength: nat := 3

  /** A save needs a heading, and the heading needs at least three characters. */
  predicate HeadingAccepted(heading: Option<string>) {
    heading.Some? && |heading.value| >= MinHeadingLength
  }

  /** A further photo slot needs the entitlement; the first one is free. */
  predicate AddPhotoAllowed(photoCount: nat, isPremium: bool) {
    photoCount == 0 || isPremium
  }

  /** Opening a photo from the editing cell: the first photo is free. */
  predicate EditCellOpenAllowed(number: int, isPremium: bool) {
    number == 0 || isPremium
  }

  /** Opening a photo from the read-only cell: refused exactly for a later
      photo without the entitlement. */
  predicate ViewCellOpenAllowed(index: int, isPremium: bool) {
    !(index > 0 && !isPremium)
  }

  /** The two cells, written differently, apply the same gate to every photo index. */
  lemma OpenGatesAgree(index: nat, isPremium: bool)
    ensures EditCellOpenAllowed(index, isPremium) <==> ViewCellOpenAllowed(index, isPremium)
    ensures EditCellOpenAllowed(index, isPremium) <==> index == 0 || isPremium
  {
  }

  /** A call issued to the remote story store. */
  datatype RemoteCall =
    | Create(story: Story)
    | Update(story: Story, photosForDelete: seq<RecordRef>,
             audioForDelete: Option<RecordRef>, videoForDelete: Option<RecordRef>)
    | Delete(story: Story)

  /** What a tap on the save button issues: nothing when the heading is
      refused, a create in the `new` mode, an update carrying the pending
      deletions in every other mode. */
  function SaveDispatch(mode: Mode, story: Story, photosForDelete: seq<RecordRef>,
                        audioForDelete: Option<RecordRef>, videoForDelete: Option<RecordRef>)
    : (call: Option<RemoteCall>)
    ensures call.None? <==> !HeadingAccepted(story.heading.text)
    ensures call.Some? ==> !call.value.Delete? && call.value.story == story
    ensures call.Some? ==> (call.value.Create? <==> mode == New)
    ensures call.Some? && call.value.Update? ==>
              call.value.photosForDelete == photosForDelete &&
              call.value.audioForDelete == audioForDelete &&
              call.value.videoForDelete == videoForDelete
  {
    if !HeadingAccepted(story.heading.text) then None
    else if mode == New then Some(Create(story))
    else Some(Update(story, photosForDelete, audioForDelete, videoForDelete))
  }

  /** The `view` mode saves through an update, exactly as the `edit` mode does. */
  lemma ViewSavesLikeEdit(story: Story, p: seq<RecordRef>, a: Option<RecordRef>, v: Option<RecordRef>)
    ensures SaveDispatch(View, story, p, a, v) == SaveDispatch(Edit, story, p, a, v)
  {
  }

  /** Which of the save, microphone and edit buttons are hidden. */
  datatype ButtonVisibility = ButtonVisibility(saveHidden: bool, microphoneHidden: bool, editHidden: bool)

  /** The buttons shown for a mode, given whether the story already has an audio clip. */
  function SetupVisibility(mode: Mode, hasAudio: bool): (v: ButtonVisibility)
    ensures mode == View ==> v.saveHidden && v.microphoneHidden && !v.editHidden
    ensures mode != View ==> !v.saveHidden && v.editHidden && (v.microphoneHidden <==> hasAudio)
  {
    match mode
    case New => ButtonVisibility(false, hasAudio, true)
    case Edit => ButtonVisibility(false, hasAudio, true)
    case View => ButtonVisibility(true, true, false)
  }

  /** The record permission as the audio session reports it when the
      microphone is pressed. */
  datatype RecordPermission = Granted | Denied | Undetermined

  /** Whether a press on the microphone leaves a recorder running before the
      press ends: the entitlement is held, the permission is already granted,
      the audio session can be set up and the recorder can be created. An
      undetermined permission starts nothing during the press: the recorder
      waits for the user's answer. */
  function RecordingStarts(isPremium: bool, permission: RecordPermission,
                           sessionReady: bool, recorderCreated: bool): (r: bool)
    ensures r ==> isPremium
    ensures r ==> permission == Granted
    ensures isPremium && permission == Granted && sessionReady && recorderCreated ==> r
    ensures !sessionReady || !recorderCreated ==> !r
  {
    isPremium && sessionReady && permission == Granted && recorderCreated
  }

  /** Whether the user's answer to the permission prompt starts a recorder.
      Two requests wait for it: one issued while the permission was
      undetermined, which sets the session up again when the answer is yes,
      and one issued after the session was set up at the press
      (`sessionWasReady`). Either starts the recorder on a yes. */
  function AnswerStartsRecording(allowed: bool, sessionWasReady: bool, sessionReady: bool,
                                 recorderCreated: bool): (r: bool)
    ensures r ==> allowed && recorderCreated
    ensures r <== allowed && recorderCreated && (sessionWasReady || sessionReady)
    ensures !sessionWasReady && !sessionReady ==> !r
  {
    allowed && (sessionWasReady || sessionReady) && recorderCreated
  }
}
