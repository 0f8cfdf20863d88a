/** The values the story screen works on: the story aggregate, its text fields
    and its attachments. Remote record references, colours and dates are
    opaque values compared only for equality. */
module StoryTypes {

  datatype Option<T> = None | Some(value: T)

  /** The three modes the story screen is opened in. */
  datatype Mode = New | Edit | View

  /** A reference to a record in the remote store. */
  datatype RecordRef = RecordRef(recordName: string)

  /** Where an attachment's bytes live on the device: a file in the
      application's documents directory, or an image handed over by the
      photo picker. */
  datatype Asset = DocumentFile(name: string) | PickedImage(id: nat)

  /** The fixed file a new voice recording is written to. */
  const RecordingFile: Asset := DocumentFile("recording.m4a")

  /** The fixed file a picked video is copied to. */
  const VideoFile: Asset := DocumentFile("video.mov")

  /** A photo, video or audio attachment: a local asset and, once it has been
      stored remotely, the reference of its record. */
  datatype Attachment = Attachment(asset: Asset, cloudReference: Option<RecordRef>)

  datatype Color = Color(rgba: nat)

  type Date = int

  /** One styled text field of a story: its text, colour and font number. */
  datatype TextField = TextField(text: Option<string>, color: Color, fontNumber: int)

  /** Which text field a text-input screen edits. */
  datatype FieldKind = Heading | Place | Thoughts

  datatype Story = Story(
    date: Date,
    heading: TextField,
    place: TextField,
    thoughts: TextField,
    photos: seq<Attachment>,
    video: Option<Attachment>,
    audio: Option<Attachment>)
  {
    /** The text field `kind` names. */
    function Field(kind: FieldKind): (f: TextField) {
      match kind
      case Heading => heading
      case Place => place
      case Thoughts => thoughts
    }

    /** The story with the field `kind` replaced by `f`. */
    function WithField(kind: FieldKind, f: TextField): (s: Story)
      ensures s.Field(kind) == f
      ensures forall k: FieldKind :: k != kind ==> s.Field(k) == Field(k)
      ensures s.date == date && s.photos == photos && s.video == video && s.audio == audio
    {
      match kind
      case Heading => this.(heading := f)
      case Place => this.(place := f)
      case Thoughts => this.(thoughts := f)
    }
  }

  /** A text edit leaves the story equal to what it was exactly when the
      edited field already held the new (text, colour, font) triple. */
  lemma EditChangesStoryIff(s: Story, kind: FieldKind, f: TextField)
    ensures s.WithField(kind, f) != s <==> s.Field(kind) != f
  {
    if s.WithField(kind, f) == s {
      assert s.Field(kind) == s.WithField(kind, f).Field(kind);
    }
  }
}
