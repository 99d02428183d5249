/**
 * The state the editor's callbacks share: the process-wide context entries
 * (`allowimagechanges`, `curop`, `filternotification`, `cropnotification`,
 * `imagefilepath`) and the widget fields they read and write, together with
 * the two effects the callbacks have on the outside world: notifications
 * shown to the user and images written to disk.
 */
module EditorState {
  import opened Wrappers
  import opened ImageService

  /** The operation name the crop button holds the lock under. */
  const Crop: string := "crop"
  /** The operation name of the blur preview, checked by the blur button and used by its slider. */
  const Blur: string := "blur"

  /** How a filter slider is wired: its operation name, the filter class it builds and that class's keyword. */
  datatype SliderConfig = SliderConfig(filter: string, kernel: string, attr: string)

  /** The one slider of the application: a "blur" preview built from `MinFilter(size=...)`. */
  const BlurSlider: SliderConfig := SliderConfig(Blur, "MinFilter", "size")

  /** Indices of the controls that opening an image enables, in the order they are passed. */
  const CropButton: nat := 0
  const BlurButton: nat := 1
  const BlurSliderControl: nat := 2
  const ControlCount: nat := 3

  /** What the notifier is asked to show. */
  datatype Message =
    | NoImageOpen                    // "No image file is currently opened"
    | ImageSaved(path: string)       // "Image saved to: ..."
    | SaveFailed                     // "Error encountered while saving: ..."
    | LoadFailed                     // "Error encountered while loading file: ..."
    | OperationInProgress            // "Can not perform this operation while another operation is in progress"
    | BlurValueNeeded                // "Please set a blur value before applying this filter"
    | AppliedBlur                    // "Applied Blur"
    | CropGuidance                   // "Please adjust the handles to crop the image"
    | TooSmallToCrop                 // "Can't crop further, the image is too small"
    | CannotPreview(filter: string)  // "Can't preview ... while another operation is in progress", offering a rollback

  /** The main status-bar entry. */
  datatype Status = Welcome | FileName(path: string)

  /** One image written to disk by `Image.save`. */
  datatype Written = Written(path: string, image: Image)

  /** The entries of the process-wide context the callbacks coordinate through. */
  datatype Context = Context(
    allowImageChanges: bool,
    curOp: Option<string>,          // None: never set, or set to Python's None
    filterNotification: bool,
    cropNotification: bool,
    imageFilePath: Option<string>)  // None: no file opened yet

  /** The image view: the image shown and, during a filter preview, the snapshot it was made from. */
  datatype ImageView = ImageView(image: Option<Image>, originalImage: Option<Image>)

  /** The status bar's entries: the main status, "preview" (the filter previewed) and "resolution". */
  datatype StatusBar = StatusBar(status: Status, preview: Option<string>, resolution: Option<Size>)

  datatype State = State(
    ctx: Context,
    imview: ImageView,
    sliderValue: real,              // the blur slider's value
    cropViewVisible: bool,          // the crop overlay is shown
    statusbar: StatusBar,
    disabled: seq<bool>,            // the crop button, the blur button and the blur slider
    notices: seq<Message>,          // every notification, in order
    written: seq<Written>)          // every image saved, in order

  /** How many times `m` occurs in `ms`, counted from the end so that appending one message is one step. */
  function CountOf(ms: seq<Message>, m: Message): nat
  {
    if ms == [] then 0
    else CountOf(ms[..|ms| - 1], m) + (if ms[|ms| - 1] == m then 1 else 0)
  }

  /**
   * What holds in every state the application can reach:
   * the lock is free exactly when no operation is named; the crop overlay is shown
   * exactly while crop holds the lock; a positive slider means the blur preview
   * holds it; a filter holding the lock has its snapshot; enabled controls and an
   * open path imply a loaded image; the crop guidance was shown once if and only if
   * its flag is set.
   */
  predicate Inv(s: State)
  {
    && (s.ctx.allowImageChanges <==> s.ctx.curOp.None?)
    && (s.cropViewVisible <==> s.ctx.curOp == Some(Crop))
    && (s.sliderValue > 0.0 ==> s.ctx.curOp == Some(Blur))
    && (s.ctx.curOp.Some? && s.ctx.curOp != Some(Crop) ==> s.imview.originalImage.Some?)
    && |s.disabled| == ControlCount
    && (forall i :: 0 <= i < |s.disabled| && !s.disabled[i] ==> s.imview.image.Some?)
    && (s.ctx.imageFilePath.Some? ==> s.imview.image.Some?)
    && CountOf(s.notices, CropGuidance) == (if s.ctx.cropNotification then 1 else 0)
  }

  /**
   * The state after start-up: the two defaults set at import time, an empty image
   * view, a slider at 0, a hidden crop overlay, the welcome status and every
   * image control disabled.
   */
  function Init(): (s: State)
    ensures Inv(s)
    ensures s.ctx.allowImageChanges && s.ctx.curOp == None && !s.ctx.filterNotification
  {
    State(Context(true, None, false, false, None),
          ImageView(None, None), 0.0, false, StatusBar(Welcome, None, None),
          seq(ControlCount, _ => true), [], [])
  }
}
