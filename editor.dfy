/**
 * The editor's callbacks as they run: one object holding the shared context and
 * the widgets' state, each group a field the callbacks update entry by entry, and
 * one method per callback, each proved to take the state to what its function in
 * `Handlers` says.
 */
module EditorApp {
  import opened Wrappers
  import opened ImageService
  import opened EditorState
  import Handlers

  class Editor {
    var ctx: Context                // the shared context's entries
    var imview: ImageView           // the image view
    var sliderValue: real           // the blur slider
    var cropViewVisible: bool       // the crop overlay
    var statusbar: StatusBar        // the status bar
    var disabled: seq<bool>         // the crop button, the blur button and the blur slider
    var notices: seq<Message>       // what the notifier has shown
    var written: seq<Written>       // what reached the disk

    /** The abstract state these fields hold. */
    function Model(): State
      reads this
    {
      State(ctx, imview, sliderValue, cropViewVisible, statusbar, disabled, notices, written)
    }

    /** Start-up: the defaults set at import time and the freshly built widgets. */
    constructor ()
      ensures Model() == Init()
    {
      ctx := Context(true, None, false, false, None);
      imview := ImageView(None, None);
      sliderValue := 0.0;
      cropViewVisible := false;
      statusbar := StatusBar(Welcome, None, None);
      disabled := seq(ControlCount, _ => true);
      notices, written := [], [];
    }

    method SaveImage(fails: bool) returns (raised: bool)
      requires ctx.imageFilePath.Some? ==> imview.image.Some?
      modifies this
      ensures Handlers.SaveImage(old(Model()), fails)
           == if raised then Handlers.Raised(Model()) else Handlers.Done(Model())
    {
      raised := false;
      var imagefile := ctx.imageFilePath;
      if imagefile.None? {
        notices := notices + [NoImageOpen];
        return;
      }
      if fails {
        raised := true;
        return;
      }
      written := written + [Written(imagefile.value, imview.image.value)];
      notices := notices + [ImageSaved(imagefile.value)];
    }

    method SaveAsImage(chosen: Option<string>, fails: bool)
      requires ctx.imageFilePath.Some? ==> imview.image.Some?
      modifies this
      ensures Model() == Handlers.SaveAsImage(old(Model()), chosen, fails)
    {
      var imagefile := ctx.imageFilePath;
      if imagefile.None? {
        notices := notices + [NoImageOpen];
        return;
      }
      if Handlers.Cancelled(chosen) {
        return;
      }
      ctx := ctx.(imageFilePath := chosen);
      var raised := SaveImage(fails);
      if raised {
        notices := notices + [SaveFailed];
        ctx := ctx.(imageFilePath := imagefile);
        return;
      }
      statusbar := statusbar.(status := FileName(chosen.value));
    }

    method OpenImage(chosen: Option<string>, decoded: Option<Size>)
      modifies this
      ensures Model() == Handlers.OpenImage(old(Model()), chosen, decoded)
    {
      if Handlers.Cancelled(chosen) {
        return;
      }
      if decoded.None? {
        notices := notices + [LoadFailed];
        return;
      }
      var imagefile := chosen.value;
      imview := imview.(image := Some(Decoded(imagefile, decoded.value)));
      ctx := ctx.(imageFilePath := chosen);
      statusbar := statusbar.(status := FileName(imagefile), resolution := decoded);
      // enable each button handed to the callback
      var buttons := disabled;
      var i := 0;
      while i < |buttons|
        invariant 0 <= i <= |buttons| == |disabled|
        invariant forall j :: 0 <= j < i ==> !buttons[j]
      {
        buttons := buttons[i := false];
        i := i + 1;
      }
      assert buttons == seq(|disabled|, _ => false);
      disabled := buttons;
    }

    method BlurImage()
      requires imview.image.Some?
      modifies this
      ensures Model() == Handlers.BlurImage(old(Model()))
    {
      if !ctx.allowImageChanges && ctx.curOp != Some(Blur) {
        notices := notices + [OperationInProgress];
        return;
      }
      if !(sliderValue > 0.0) {
        notices := notices + [BlurValueNeeded];
        return;
      }
      ctx := ctx.(allowImageChanges := true);
      ctx := ctx.(curOp := None);
      var val := sliderValue;
      sliderValue := 0.0;
      statusbar := statusbar.(preview := None);
      imview := imview.(image := Some(Filtered(imview.image.value, GaussianBlur(val))));
      notices := notices + [AppliedBlur];
    }

    method StartCrop(ratios: Handlers.Ratios, cropped: Size)
      requires imview.image.Some?
      modifies this
      ensures Model() == Handlers.StartCrop(old(Model()), ratios, cropped)
    {
      if !ctx.allowImageChanges && ctx.curOp != Some(Crop) {
        notices := notices + [OperationInProgress];
        return;
      }
      ctx := ctx.(curOp := Some(Crop));
      if !cropViewVisible {
        ctx := ctx.(allowImageChanges := false);
        if !ctx.cropNotification {
          notices := notices + [CropGuidance];
          ctx := ctx.(cropNotification := true);
        }
        cropViewVisible := true;
      } else {
        var size := SizeOf(imview.image.value);
        var w, h := size.width as real, size.height as real;
        var left := w * ratios.left;
        var top := h * ratios.top;
        var right := w - w * ratios.right;
        var bottom := h - h * ratios.bottom;
        assert Box(left, top, right, bottom) == Handlers.CropBox(size, ratios);
        cropViewVisible := false;
        if right - left < 2.0 || bottom - top < 2.0 {
          notices := notices + [TooSmallToCrop];
        } else {
          imview := imview.(image := Some(Cropped(imview.image.value, Box(left, top, right, bottom), cropped)));
          statusbar := statusbar.(resolution := Some(cropped));
        }
        ctx := ctx.(allowImageChanges := true);
        ctx := ctx.(curOp := None);
      }
    }

    method SetFilterNotification(flag: bool)
      modifies this
      ensures Model() == Handlers.SetFilterNotification(old(Model()), flag)
    {
      ctx := ctx.(filterNotification := flag);
    }

    /** The slider's change callback; the slider already holds its new value. */
    method FilterSliderChange(cfg: SliderConfig)
      requires imview.image.Some?
      requires !ctx.allowImageChanges && ctx.curOp == Some(cfg.filter) ==> imview.originalImage.Some?
      modifies this
      ensures Model() == Handlers.FilterSliderChange(old(Model()), cfg)
    {
      if !ctx.allowImageChanges && ctx.curOp != Some(cfg.filter) {
        sliderValue := 0.0;
        if !ctx.filterNotification {
          SetFilterNotification(true);
          notices := notices + [CannotPreview(cfg.filter)];
        }
        return;
      }
      if ctx.allowImageChanges {
        imview := imview.(originalImage := imview.image);
      }
      imview := imview.(image := Some(Filtered(imview.originalImage.value,
                                               Kernel(cfg.kernel, cfg.attr, Handlers.Trunc(sliderValue)))));
      statusbar := statusbar.(preview := Some(cfg.filter));
      if sliderValue > 0.0 {
        ctx := ctx.(allowImageChanges := false);
        ctx := ctx.(curOp := Some(cfg.filter));
      } else if sliderValue == 0.0 {
        if ctx.curOp == Some(cfg.filter) {
          imview := imview.(image := imview.originalImage);
          imview := imview.(originalImage := None);
          statusbar := statusbar.(preview := None);
          ctx := ctx.(allowImageChanges := true);
          ctx := ctx.(curOp := None);
        }
      }
    }
  }
}
