/**
 * The callbacks of the editor as functions from the state before the call to the
 * state after it. Foreign inputs (what a file dialog returned, whether Pillow
 * raised, what `Image.open` decoded, the crop result's size) are parameters.
 */
module Handlers {
  import opened Wrappers
  import opened ImageService
  import opened EditorState

  function Notify(s: State, m: Message): State
  {
    s.(notices := s.notices + [m])
  }

  /** A dialog result Python treats as false: cancelled, or an empty path. */
  predicate Cancelled(chosen: Option<string>)
  {
    chosen.None? || chosen.value == ""
  }

  /** The guard shared by the image-changing callbacks: another operation holds the lock. */
  predicate LockedByOther(s: State, op: string)
  {
    !s.ctx.allowImageChanges && s.ctx.curOp != Some(op)
  }

  /** A callback either completes or lets an exception escape, with the state reached so far. */
  datatype Outcome = Done(state: State) | Raised(state: State)

  /** `saveimage`: write the current image to the current path. `fails` is whether Pillow's `save` raises. */
  function SaveImage(s: State, fails: bool): (r: Outcome)
    requires s.ctx.imageFilePath.Some? ==> s.imview.image.Some?
    ensures s.ctx.imageFilePath.None? ==>
      r.Done? && r.state.written == s.written && r.state.notices == s.notices + [NoImageOpen]
    ensures s.ctx.imageFilePath.Some? && fails ==> r == Raised(s)
    ensures s.ctx.imageFilePath.Some? && !fails ==>
      && r.Done?
      && r.state.written == s.written + [Written(s.ctx.imageFilePath.value, s.imview.image.value)]
      && r.state.notices == s.notices + [ImageSaved(s.ctx.imageFilePath.value)]
    ensures r.state == s.(written := r.state.written, notices := r.state.notices)
  {
    if s.ctx.imageFilePath.None? then Done(Notify(s, NoImageOpen))
    else if fails then Raised(s)
    else
      var path := s.ctx.imageFilePath.value;
      Done(Notify(s.(written := s.written + [Written(path, s.imview.image.value)]), ImageSaved(path)))
  }

  /** Save As adopts the chosen path only when there is an open file, the dialog was not cancelled and the save succeeded. */
  predicate SaveAsAdopts(s: State, chosen: Option<string>, fails: bool)
  {
    s.ctx.imageFilePath.Some? && !Cancelled(chosen) && !fails
  }

  /**
   * `saveasimage`: ask for a new path, point `imagefilepath` at it and save there;
   * if saving raises, tell the user and put the previous path back.
   */
  function SaveAsImage(s: State, chosen: Option<string>, fails: bool): (r: State)
    requires s.ctx.imageFilePath.Some? ==> s.imview.image.Some?
    ensures s.ctx.imageFilePath.None? ==> r.written == s.written && r.notices == s.notices + [NoImageOpen]
    ensures s.ctx.imageFilePath.Some? && Cancelled(chosen) ==> r == s
    ensures r.ctx.imageFilePath == if SaveAsAdopts(s, chosen, fails) then chosen else s.ctx.imageFilePath
    ensures r.written ==
      if SaveAsAdopts(s, chosen, fails) then s.written + [Written(chosen.value, s.imview.image.value)] else s.written
    ensures s.ctx.imageFilePath.Some? && !Cancelled(chosen) && fails ==> r.notices == s.notices + [SaveFailed]
    ensures SaveAsAdopts(s, chosen, fails) ==>
      r.notices == s.notices + [ImageSaved(chosen.value)] && r.statusbar.status == FileName(chosen.value)
    ensures !SaveAsAdopts(s, chosen, fails) ==> r.statusbar.status == s.statusbar.status
    ensures r == s.(ctx := s.ctx.(imageFilePath := r.ctx.imageFilePath),
                    statusbar := s.statusbar.(status := r.statusbar.status),
                    written := r.written, notices := r.notices)
  {
    if s.ctx.imageFilePath.None? then Notify(s, NoImageOpen)
    else if Cancelled(chosen) then s
    else
      var previous := s.ctx.imageFilePath;
      match SaveImage(s.(ctx := s.ctx.(imageFilePath := chosen)), fails)
      case Raised(t) =>
        var u := Notify(t, SaveFailed);
        u.(ctx := u.ctx.(imageFilePath := previous))
      case Done(t) => t.(statusbar := t.statusbar.(status := FileName(chosen.value)))
  }

  /**
   * `openimage`: ask for a file, decode it into the image view, record its path,
   * show its name and size and enable the image controls. `decoded` is the size
   * `Image.open` reported, or None when it raised.
   */
  function OpenImage(s: State, chosen: Option<string>, decoded: Option<Size>): (r: State)
    ensures Cancelled(chosen) ==> r == s
    ensures !Cancelled(chosen) && decoded.None? ==> r == s.(notices := s.notices + [LoadFailed])
    ensures r.ctx.imageFilePath == if !Cancelled(chosen) && decoded.Some? then chosen else s.ctx.imageFilePath
    ensures !Cancelled(chosen) && decoded.Some? ==>
      && r.imview.image == Some(Decoded(chosen.value, decoded.value))
      && r.statusbar.status == FileName(chosen.value)
      && r.statusbar.resolution == decoded
      && |r.disabled| == |s.disabled|
      && (forall i :: 0 <= i < |r.disabled| ==> !r.disabled[i])
      && r.notices == s.notices
    ensures r == s.(ctx := s.ctx.(imageFilePath := r.ctx.imageFilePath),
                    imview := s.imview.(image := r.imview.image),
                    statusbar := s.statusbar.(status := r.statusbar.status, resolution := r.statusbar.resolution),
                    disabled := r.disabled, notices := r.notices)
  {
    if Cancelled(chosen) then s
    else if decoded.None? then Notify(s, LoadFailed)
    else
      var path := chosen.value;
      s.(imview := s.imview.(image := Some(Decoded(path, decoded.value))),
         ctx := s.ctx.(imageFilePath := chosen),
         statusbar := s.statusbar.(status := FileName(path), resolution := decoded),
         disabled := seq(|s.disabled|, _ => false))
  }

  /**
   * `blurimage`: commit a blur of the current image with the slider's value as
   * radius, releasing the lock, resetting the slider and clearing the preview status.
   */
  function BlurImage(s: State): (r: State)
    requires s.imview.image.Some?
    ensures LockedByOther(s, Blur) ==> r == s.(notices := s.notices + [OperationInProgress])
    ensures !LockedByOther(s, Blur) && !(s.sliderValue > 0.0) ==> r == s.(notices := s.notices + [BlurValueNeeded])
    ensures !LockedByOther(s, Blur) && s.sliderValue > 0.0 ==>
      && r.ctx.allowImageChanges && r.ctx.curOp == None
      && r.sliderValue == 0.0 && r.statusbar.preview == None
      && r.imview.image == Some(Filtered(s.imview.image.value, GaussianBlur(s.sliderValue)))
      && r.notices == s.notices + [AppliedBlur]
      && r == s.(ctx := r.ctx, imview := s.imview.(image := r.imview.image), sliderValue := r.sliderValue,
                 statusbar := s.statusbar.(preview := r.statusbar.preview), notices := r.notices)
      && r.ctx == s.ctx.(allowImageChanges := true, curOp := None)
  {
    if LockedByOther(s, Blur) then Notify(s, OperationInProgress)
    else if !(s.sliderValue > 0.0) then Notify(s, BlurValueNeeded)
    else
      var val := s.sliderValue;
      var t := s.(ctx := s.ctx.(allowImageChanges := true, curOp := None), sliderValue := 0.0,
                  statusbar := s.statusbar.(preview := None));
      Notify(t.(imview := t.imview.(image := Some(Filtered(t.imview.image.value, GaussianBlur(val))))), AppliedBlur)
  }

  /** Edge ratios of the crop overlay: the fraction of each side to cut away. */
  datatype Ratios = Ratios(left: real, top: real, right: real, bottom: real)

  /** The crop rectangle the overlay's ratios select on an image of the given size. */
  function CropBox(size: Size, ratios: Ratios): (b: Box)
    ensures b.right - b.left == size.width as real * (1.0 - ratios.left - ratios.right)
    ensures b.bottom - b.top == size.height as real * (1.0 - ratios.top - ratios.bottom)
    ensures 0.0 <= ratios.left && 0.0 <= ratios.top ==> 0.0 <= b.left && 0.0 <= b.top
    ensures 0.0 <= ratios.right && 0.0 <= ratios.bottom ==>
      b.right <= size.width as real && b.bottom <= size.height as real
  {
    var w, h := size.width as real, size.height as real;
    Box(w * ratios.left, h * ratios.top, w - w * ratios.right, h - h * ratios.bottom)
  }

  /** A crop is refused when the rectangle is under 2 pixels wide or high. */
  predicate TooSmall(b: Box)
  {
    b.right - b.left < 2.0 || b.bottom - b.top < 2.0
  }

  /**
   * `startcrop`, a two-step toggle: the first call takes the lock and shows the
   * overlay; the second crops the image to the overlay's rectangle (unless it is
   * too small), hides the overlay and releases the lock. `cropped` is the size of
   * the image Pillow's `crop` returns.
   */
  function StartCrop(s: State, ratios: Ratios, cropped: Size): (r: State)
    requires s.imview.image.Some?
    ensures LockedByOther(s, Crop) ==> r == s.(notices := s.notices + [OperationInProgress])
    ensures !LockedByOther(s, Crop) && !s.cropViewVisible ==>
      && r.ctx.curOp == Some(Crop) && !r.ctx.allowImageChanges
      && r.cropViewVisible && r.ctx.cropNotification
      && r.notices == (if s.ctx.cropNotification then s.notices else s.notices + [CropGuidance])
      && r == s.(ctx := s.ctx.(curOp := r.ctx.curOp, allowImageChanges := r.ctx.allowImageChanges,
                               cropNotification := r.ctx.cropNotification),
                 cropViewVisible := r.cropViewVisible, notices := r.notices)
    ensures !LockedByOther(s, Crop) && s.cropViewVisible ==>
      && r.ctx.allowImageChanges && r.ctx.curOp == None && !r.cropViewVisible
      && var box := CropBox(SizeOf(s.imview.image.value), ratios);
      && (TooSmall(box) ==> r.imview.image == s.imview.image && r.statusbar.resolution == s.statusbar.resolution && r.notices == s.notices + [TooSmallToCrop])
      && (!TooSmall(box) ==> r.imview.image == Some(Cropped(s.imview.image.value, box, cropped)) && r.statusbar.resolution == Some(cropped) && r.notices == s.notices)
      && r == s.(ctx := s.ctx.(allowImageChanges := r.ctx.allowImageChanges, curOp := r.ctx.curOp),
                 imview := s.imview.(image := r.imview.image),
                 statusbar := s.statusbar.(resolution := r.statusbar.resolution),
                 cropViewVisible := r.cropViewVisible, notices := r.notices)
  {
    if LockedByOther(s, Crop) then Notify(s, OperationInProgress)
    else
      var t := s.(ctx := s.ctx.(curOp := Some(Crop)));
      if !t.cropViewVisible then
        var u := t.(ctx := t.ctx.(allowImageChanges := false));
        var v := if !u.ctx.cropNotification then
                   var w := Notify(u, CropGuidance);
                   w.(ctx := w.ctx.(cropNotification := true))
                 else u;
        v.(cropViewVisible := true)
      else
        var img := t.imview.image.value;
        var box := CropBox(SizeOf(img), ratios);
        var u := t.(cropViewVisible := false);
        var v := if TooSmall(box) then Notify(u, TooSmallToCrop)
                 else u.(imview := u.imview.(image := Some(Cropped(img, box, cropped))),
                         statusbar := u.statusbar.(resolution := Some(cropped)));
        v.(ctx := v.ctx.(allowImageChanges := true, curOp := None))
  }

  /** `set_filter_notification`: the suppression flag of the "can't preview" notice, and nothing else. */
  function SetFilterNotification(s: State, status: bool): (r: State)
    ensures r.ctx.filterNotification == status
    ensures r == s.(ctx := s.ctx.(filterNotification := r.ctx.filterNotification))
  {
    s.(ctx := s.ctx.(filterNotification := status))
  }

  /** Python's `int(x)` on a float: truncation toward zero. */
  function Trunc(x: real): (n: int)
    ensures 0.0 <= x ==> 0 <= n && n as real <= x < n as real + 1.0
    ensures x < 0.0 ==> n <= 0 && n as real - 1.0 < x <= n as real
  {
    if x >= 0.0 then x.Floor else -((-x).Floor)
  }

  /** The image a filter callback previews from: the current image when the lock is free, else the kept snapshot. */
  function Snapshot(s: State): Image
    requires s.ctx.allowImageChanges ==> s.imview.image.Some?
    requires !s.ctx.allowImageChanges ==> s.imview.originalImage.Some?
  {
    if s.ctx.allowImageChanges then s.imview.image.value else s.imview.originalImage.value
  }

  /** The slider value has come back to 0 while this filter holds the lock: the preview is dropped. */
  predicate PreviewEnds(s: State, cfg: SliderConfig)
  {
    s.sliderValue == 0.0 && s.ctx.curOp == Some(cfg.filter)
  }

  /**
   * `filtersliderchange`, the slider's change callback (the slider already holds
   * its new value). A move while another operation holds the lock is pushed back
   * to 0 and notified only while the suppression flag is clear (the flag is then
   * set). Otherwise previews never stack: the filter is applied to the snapshot (the
   * current image when the lock is free, the kept snapshot otherwise) and a positive
   * value takes the lock. Back at 0 while this filter holds the lock, the snapshot
   * is shown again, dropped, and the lock is released.
   */
  function FilterSliderChange(s: State, cfg: SliderConfig): (r: State)
    requires s.imview.image.Some?
    requires !s.ctx.allowImageChanges && s.ctx.curOp == Some(cfg.filter) ==> s.imview.originalImage.Some?
    ensures LockedByOther(s, cfg.filter) ==>
      && r.sliderValue == 0.0 && r.ctx.filterNotification
      && r.notices == (if s.ctx.filterNotification then s.notices else s.notices + [CannotPreview(cfg.filter)])
      && r == s.(ctx := s.ctx.(filterNotification := r.ctx.filterNotification),
                 sliderValue := r.sliderValue, notices := r.notices)
    ensures !LockedByOther(s, cfg.filter) && !PreviewEnds(s, cfg) ==>
      && r.imview.originalImage == Some(Snapshot(s))
      && r.imview.image == Some(Filtered(Snapshot(s), Kernel(cfg.kernel, cfg.attr, Trunc(s.sliderValue))))
      && r.statusbar.preview == Some(cfg.filter)
      && (if s.sliderValue > 0.0 then !r.ctx.allowImageChanges && r.ctx.curOp == Some(cfg.filter)
          else r.ctx.allowImageChanges == s.ctx.allowImageChanges && r.ctx.curOp == s.ctx.curOp)
      && r == s.(ctx := s.ctx.(allowImageChanges := r.ctx.allowImageChanges, curOp := r.ctx.curOp),
                 imview := r.imview, statusbar := s.statusbar.(preview := r.statusbar.preview))
    ensures PreviewEnds(s, cfg) ==>
      && r.imview.image == Some(Snapshot(s)) && r.imview.originalImage == None && r.statusbar.preview == None
      && r.ctx.allowImageChanges && r.ctx.curOp == None
      && r == s.(ctx := s.ctx.(allowImageChanges := r.ctx.allowImageChanges, curOp := r.ctx.curOp),
                 imview := r.imview, statusbar := s.statusbar.(preview := r.statusbar.preview))
  {
    if LockedByOther(s, cfg.filter) then
      var t := s.(sliderValue := 0.0);
      if !t.ctx.filterNotification then Notify(SetFilterNotification(t, true), CannotPreview(cfg.filter)) else t
    else
      var t := if s.ctx.allowImageChanges then s.(imview := s.imview.(originalImage := s.imview.image)) else s;
      var orig := t.imview.originalImage.value;
      var u := t.(imview := t.imview.(image := Some(Filtered(orig, Kernel(cfg.kernel, cfg.attr, Trunc(t.sliderValue))))),
                  statusbar := t.statusbar.(preview := Some(cfg.filter)));
      if u.sliderValue > 0.0 then u.(ctx := u.ctx.(allowImageChanges := false, curOp := Some(cfg.filter)))
      else if u.sliderValue == 0.0 then
        if u.ctx.curOp == Some(cfg.filter) then
          u.(imview := ImageView(u.imview.originalImage, None),
             statusbar := u.statusbar.(preview := None),
             ctx := u.ctx.(allowImageChanges := true, curOp := None))
        else u
      else u
  }
}
