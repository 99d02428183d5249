/**
 * A session of the running application: the user's actions as events, each
 * dispatched to the callback the widget tree wires it to, and what holds over
 * any sequence of them.
 */
module Session {
  import opened Wrappers
  import opened ImageService
  import opened EditorState
  import opened Handlers

  /** One user action, with the answers of the dialogs and of the image service it meets. */
  datatype Event =
    | OpenClicked(chosen: Option<string>, decoded: Option<Size>)  // menu "Open Image"
    | SaveClicked(fails: bool)                                    // menu "Save"
    | SaveAsClicked(chosen: Option<string>, fails: bool)          // menu "Save As"
    | CropClicked(ratios: Ratios, cropped: Size)                  // the "Crop" button
    | BlurClicked                                                 // the "Blur" button
    | SliderMoved(value: real)                                    // the blur slider, moved to `value`
    | RollbackClicked                                             // the rollback offered by the "can't preview" notice

  /** The latest notice offers its rollback action. */
  predicate RollbackOffered(s: State)
  {
    |s.notices| > 0 && s.notices[|s.notices| - 1].CannotPreview?
  }

  lemma CountOfPush(ms: seq<Message>, x: Message, m: Message)
    ensures CountOf(ms + [x], m) == CountOf(ms, m) + (if x == m then 1 else 0)
  {
    assert (ms + [x])[..|ms|] == ms;
  }

  lemma OpenImageKeepsInv(s: State, chosen: Option<string>, decoded: Option<Size>)
    requires Inv(s)
    ensures Inv(OpenImage(s, chosen, decoded))
  {

  }

  lemma SaveImageKeepsInv(s: State, fails: bool)
    requires Inv(s)
    ensures Inv(SaveImage(s, fails).state)
  {

  }

  lemma SaveAsImageKeepsInv(s: State, chosen: Option<string>, fails: bool)
    requires Inv(s)
    ensures Inv(SaveAsImage(s, chosen, fails))
  {

  }

  lemma StartCropKeepsInv(s: State, ratios: Ratios, cropped: Size)
    requires Inv(s) && s.imview.image.Some?
    ensures Inv(StartCrop(s, ratios, cropped))
  {

  }

  lemma BlurImageKeepsInv(s: State)
    requires Inv(s) && s.imview.image.Some?
    ensures Inv(BlurImage(s))
  {

  }

  lemma SliderMovedKeepsInv(s: State, v: real)
    requires Inv(s) && s.imview.image.Some?
    ensures Inv(FilterSliderChange(s.(sliderValue := v), BlurSlider))
  {

  }

  /**
   * Route an event to its callback. The menu is always live; a disabled button or
   * slider ignores the user; the rollback is there only while its notice is the latest.
   * Every callback keeps the invariant.
   */
  function Dispatch(s: State, e: Event): (r: State)
    requires Inv(s)
    ensures Inv(r)
    ensures e.CropClicked? && s.disabled[CropButton] ==> r == s
    ensures e.BlurClicked? && s.disabled[BlurButton] ==> r == s
    ensures e.SliderMoved? && s.disabled[BlurSliderControl] ==> r == s
  {
    match e
    case OpenClicked(chosen, decoded) =>
      OpenImageKeepsInv(s, chosen, decoded);
      OpenImage(s, chosen, decoded)
    case SaveClicked(fails) =>
      SaveImageKeepsInv(s, fails);
      SaveImage(s, fails).state
    case SaveAsClicked(chosen, fails) =>
      SaveAsImageKeepsInv(s, chosen, fails);
      SaveAsImage(s, chosen, fails)
    case CropClicked(ratios, cropped) =>
      if s.disabled[CropButton] then s
      else
        StartCropKeepsInv(s, ratios, cropped);
        StartCrop(s, ratios, cropped)
    case BlurClicked =>
      if s.disabled[BlurButton] then s
      else
        BlurImageKeepsInv(s);
        BlurImage(s)
    case SliderMoved(v) =>
      if s.disabled[BlurSliderControl] then s
      else
        SliderMovedKeepsInv(s, v);
        FilterSliderChange(s.(sliderValue := v), BlurSlider)
    case RollbackClicked =>
      if RollbackOffered(s) then SetFilterNotification(s, false) else s
  }

  /** The state after a sequence of events; the invariant holds all along. */
  function Run(s: State, evs: seq<Event>): (r: State)
    requires Inv(s)
    ensures Inv(r)
    decreases |evs|
  {
    if evs == [] then s else Run(Dispatch(s, evs[0]), evs[1..])
  }

  lemma {:induction false} RunAppend(s: State, a: seq<Event>, b: seq<Event>)
    requires Inv(s)
    ensures Run(s, a + b) == Run(Run(s, a), b)
    decreases |a|
  {
    if a == [] {
      assert a + b == b;
    } else {
      assert (a + b)[0] == a[0];
      assert (a + b)[1..] == a[1..] + b;
      RunAppend(Dispatch(s, a[0]), a[1..], b);
    }
  }

  /** Lock invariant: in every reachable state the lock is free exactly when no operation is named. */
  lemma LockInvariant(evs: seq<Event>)
    ensures var t := Run(Init(), evs); t.ctx.allowImageChanges <==> t.ctx.curOp.None?
  {
  }

  /** The crop guidance is shown at most once per process. */
  lemma CropGuidanceAtMostOnce(evs: seq<Event>)
    ensures CountOf(Run(Init(), evs).notices, CropGuidance) <= 1
  {
  }

  /**
   * From `s` to `t` the "can't preview" suppression flag is never cleared, and a
   * notice of that kind is added exactly when the flag goes from clear to set.
   */
  predicate FilterNoticeStep(s: State, t: State)
  {
    && (s.ctx.filterNotification ==> t.ctx.filterNotification)
    && CountOf(t.notices, CannotPreview(Blur))
       == CountOf(s.notices, CannotPreview(Blur)) + (if !s.ctx.filterNotification && t.ctx.filterNotification then 1 else 0)
  }

  lemma FileStepFilterNotice(s: State, e: Event)
    requires Inv(s)
    requires e.OpenClicked? || e.SaveClicked? || e.SaveAsClicked?
    ensures FilterNoticeStep(s, Dispatch(s, e))
  {
    var m := CannotPreview(Blur);
    match e
    case OpenClicked(chosen, decoded) =>
      CountOfPush(s.notices, LoadFailed, m);
    case SaveClicked(fails) =>
      CountOfPush(s.notices, if s.ctx.imageFilePath.None? then NoImageOpen else ImageSaved(s.ctx.imageFilePath.value), m);
    case SaveAsClicked(chosen, fails) =>
      if s.ctx.imageFilePath.None? {
        CountOfPush(s.notices, NoImageOpen, m);
      } else if fails {
        CountOfPush(s.notices, SaveFailed, m);
      } else if !Cancelled(chosen) {
        CountOfPush(s.notices, ImageSaved(chosen.value), m);
      }
  }

  lemma CropStepFilterNotice(s: State, ratios: Ratios, cropped: Size)
    requires Inv(s)
    ensures FilterNoticeStep(s, Dispatch(s, CropClicked(ratios, cropped)))
  {

  }

  lemma BlurStepFilterNotice(s: State)
    requires Inv(s)
    ensures FilterNoticeStep(s, Dispatch(s, BlurClicked))
  {

  }

  /** Every event but the rollback keeps the "can't preview" bookkeeping. */
  lemma StepFilterNotice(s: State, e: Event)
    requires Inv(s)
    requires !e.RollbackClicked?
    ensures FilterNoticeStep(s, Dispatch(s, e))
  {
    if e.SliderMoved? {
      CountOfPush(s.notices, CannotPreview(Blur), CannotPreview(Blur));
    } else if e.CropClicked? {
      CropStepFilterNotice(s, e.ratios, e.cropped);
    } else if e.BlurClicked? {
      BlurStepFilterNotice(s);
    } else {
      FileStepFilterNotice(s, e);
    }
  }

  /**
   * Repeated conflicting slider moves notify once: with no rollback in between,
   * a run adds at most one "can't preview" notice, and none once the flag is set.
   */
  lemma {:induction false} FilterNoticeAtMostOnce(s: State, evs: seq<Event>)
    requires Inv(s)
    requires forall i :: 0 <= i < |evs| ==> !evs[i].RollbackClicked?
    ensures var t := Run(s, evs);
      && (s.ctx.filterNotification ==> t.ctx.filterNotification)
      && CountOf(t.notices, CannotPreview(Blur))
         <= CountOf(s.notices, CannotPreview(Blur)) + (if s.ctx.filterNotification then 0 else 1)
    decreases |evs|
  {
    if evs != [] {
      StepFilterNotice(s, evs[0]);
      FilterNoticeAtMostOnce(Dispatch(s, evs[0]), evs[1..]);
    }
  }

  /** The blur slider moved through each of `vs` in turn. */
  function Moves(vs: seq<real>): seq<Event>
  {
    seq(|vs|, i requires 0 <= i < |vs| => SliderMoved(vs[i]))
  }

  /** While the blur preview holds the lock, positive moves change only the preview image, the slider and the preview status. */
  lemma {:induction false} PreviewMovesKeepSnapshot(t: State, vs: seq<real>)
    requires Inv(t)
    requires t.ctx.curOp == Some(Blur) && !t.disabled[BlurSliderControl]
    requires forall i :: 0 <= i < |vs| ==> vs[i] > 0.0
    ensures var u := Run(t, Moves(vs));
      u == t.(imview := t.imview.(image := u.imview.image), sliderValue := u.sliderValue,
              statusbar := t.statusbar.(preview := u.statusbar.preview))
    decreases |vs|
  {
    if vs != [] {
      var evs := Moves(vs);
      assert evs[1..] == Moves(vs[1..]);
      var t' := Dispatch(t, evs[0]);
      PreviewMovesKeepSnapshot(t', vs[1..]);
    }
  }

  /**
   * Preview round trip: from an idle editor, moving the blur slider through positive
   * values and back to 0 restores the image from before the preview, drops the
   * snapshot and the preview status and releases the lock; nothing else changes.
   */
  lemma PreviewRoundTrip(s: State, vs: seq<real>)
    requires Inv(s) && s.ctx.allowImageChanges && !s.disabled[BlurSliderControl]
    requires |vs| >= 1
    requires forall i :: 0 <= i < |vs| ==> vs[i] > 0.0
    ensures Run(s, Moves(vs) + [SliderMoved(0.0)])
         == s.(imview := s.imview.(originalImage := None), statusbar := s.statusbar.(preview := None), sliderValue := 0.0)
  {
    var evs := Moves(vs);
    RunAppend(s, evs, [SliderMoved(0.0)]);
    RunAppend(s, [evs[0]], evs[1..]);
    assert [evs[0]] + evs[1..] == evs;
    assert evs[1..] == Moves(vs[1..]);
    var t := Dispatch(s, evs[0]);
    assert Run(s, [evs[0]]) == t;
    assert t.imview.originalImage == s.imview.image;
    PreviewMovesKeepSnapshot(t, vs[1..]);
    var u := Run(t, evs[1..]);
    assert Run(u, [SliderMoved(0.0)]) == Dispatch(u, SliderMoved(0.0));
  }

  /**
   * A slider moved to 0 while the lock is free still snapshots the image, shows
   * the filtered image and the preview status, and does not take the lock.
   */
  lemma IdleZeroMovePreviews(s: State)
    requires Inv(s) && s.ctx.allowImageChanges && !s.disabled[BlurSliderControl]
    ensures var t := Dispatch(s, SliderMoved(0.0));
      && t.ctx.allowImageChanges && t.ctx.curOp == None
      && t.imview.originalImage == s.imview.image
      && t.imview.image == Some(Filtered(s.imview.image.value, Kernel("MinFilter", "size", 0)))
      && t.statusbar.preview == Some(Blur)
  {
  }

  /**
   * Committing a blur preview blurs the previewed image, not the snapshot, and
   * keeps the snapshot although the lock is released.
   */
  lemma BlurCommitsPreview(s: State, v: real)
    requires Inv(s) && s.ctx.allowImageChanges
    requires !s.disabled[BlurButton] && !s.disabled[BlurSliderControl]
    requires v > 0.0
    ensures var t := Run(s, [SliderMoved(v), BlurClicked]);
      && t.imview.image == Some(Filtered(Filtered(s.imview.image.value, Kernel("MinFilter", "size", Trunc(v))), GaussianBlur(v)))
      && t.imview.originalImage == s.imview.image
      && t.ctx.allowImageChanges && t.ctx.curOp == None && t.sliderValue == 0.0 && t.statusbar.preview == None
  {
    var t1 := Dispatch(s, SliderMoved(v));
    assert Run(s, [SliderMoved(v), BlurClicked]) == Run(t1, [BlurClicked]);
  }

  /** One event. */
  lemma RunOne(s: State, e: Event)
    requires Inv(s)
    ensures Run(s, [e]) == Dispatch(s, e)
  {
    assert [e][1..] == [];
  }

  /** Two events in a row. */
  lemma RunTwo(s: State, e1: Event, e2: Event)
    requires Inv(s)
    ensures Run(s, [e1, e2]) == Dispatch(Dispatch(s, e1), e2)
  {
    assert [e1, e2][1..] == [e2];
    RunOne(Dispatch(s, e1), e2);
  }

  /**
   * A blur slider move while crop holds the lock is pushed back to 0, sets the
   * suppression flag and is notified only if the flag was clear.
   */
  lemma MoveDuringCrop(s: State, v: real)
    requires Inv(s) && s.ctx.curOp == Some(Crop) && !s.disabled[BlurSliderControl]
    ensures Dispatch(s, SliderMoved(v))
         == s.(ctx := s.ctx.(filterNotification := true), sliderValue := 0.0,
               notices := if s.ctx.filterNotification then s.notices else s.notices + [CannotPreview(Blur)])
  {
  }

  /**
   * Notification suppression: two conflicting slider moves while crop holds the
   * lock are both pushed back to 0 and notified once, and the lock and the image
   * stay as they were.
   */
  lemma ConflictNotifiesOnce(s: State, v1: real, v2: real)
    requires Inv(s) && s.ctx.curOp == Some(Crop) && !s.ctx.filterNotification
    requires !s.disabled[BlurSliderControl]
    ensures var t := Run(s, [SliderMoved(v1), SliderMoved(v2)]);
      && t.notices == s.notices + [CannotPreview(Blur)]
      && t.ctx.filterNotification && t.sliderValue == 0.0
      && t.imview.image == s.imview.image && t.ctx.allowImageChanges == s.ctx.allowImageChanges && t.ctx.curOp == s.ctx.curOp
  {
    RunTwo(s, SliderMoved(v1), SliderMoved(v2));
    MoveDuringCrop(s, v1);
    MoveDuringCrop(Dispatch(s, SliderMoved(v1)), v2);
  }

  /**
   * The rollback offered by the "can't preview" notice clears the suppression flag,
   * so the next conflicting move is notified again.
   */
  lemma RollbackReenablesNotice(s: State, v: real)
    requires Inv(s) && s.ctx.curOp == Some(Crop) && !s.disabled[BlurSliderControl]
    requires RollbackOffered(s)
    ensures Run(s, [RollbackClicked, SliderMoved(v)]).notices == s.notices + [CannotPreview(Blur)]
  {
    RunTwo(s, RollbackClicked, SliderMoved(v));
    var t := Dispatch(s, RollbackClicked);
    assert t == s.(ctx := s.ctx.(filterNotification := false));
    MoveDuringCrop(t, v);
  }

  /**
   * Opening a file never looks at the lock, and a held lock skips the re-snapshot: a
   * file opened during a blur preview is replaced, once the slider is back at 0, by the
   * image from before the preview, while the path and the status bar name the new file.
   */
  lemma OpenDuringPreviewRestoresOldImage(s: State, v: real, path: string, size: Size)
    requires Inv(s) && s.ctx.allowImageChanges && !s.disabled[BlurSliderControl]
    requires v > 0.0 && path != ""
    ensures var t := Dispatch(Dispatch(Dispatch(s, SliderMoved(v)), OpenClicked(Some(path), Some(size))), SliderMoved(0.0));
      && t.imview.image == s.imview.image
      && t.ctx.imageFilePath == Some(path)
      && t.statusbar.status == FileName(path)
  {
    var t1 := Dispatch(s, SliderMoved(v));
    assert t1.imview.originalImage == s.imview.image && t1.ctx.curOp == Some(Blur);
    var t2 := Dispatch(t1, OpenClicked(Some(path), Some(size)));
    assert t2.imview.originalImage == s.imview.image && t2.ctx.curOp == Some(Blur);
  }

  /**
   * A crop started and finished with a rectangle under 2 pixels leaves the image
   * as it was and the lock free.
   */
  lemma CropTooSmallKeepsImage(s: State, r1: Ratios, r2: Ratios, c1: Size, c2: Size)
    requires Inv(s) && s.ctx.allowImageChanges && !s.disabled[CropButton]
    requires TooSmall(CropBox(SizeOf(s.imview.image.value), r2))
    ensures var t := Run(s, [CropClicked(r1, c1), CropClicked(r2, c2)]);
      && t.imview.image == s.imview.image && t.statusbar.resolution == s.statusbar.resolution
      && t.ctx.allowImageChanges && t.ctx.curOp == None && !t.cropViewVisible
      && |t.notices| > 0 && t.notices[|t.notices| - 1] == TooSmallToCrop
  {
    var t1 := Dispatch(s, CropClicked(r1, c1));
    assert Run(s, [CropClicked(r1, c1), CropClicked(r2, c2)]) == Run(t1, [CropClicked(r2, c2)]);
  }

  /** The 800x600 example: cutting 10% off every side gives the 80,60,720,540 rectangle, which is accepted. */
  lemma CropBoxExample()
    ensures CropBox(Size(800, 600), Ratios(0.1, 0.1, 0.1, 0.1)) == Box(80.0, 60.0, 720.0, 540.0)
    ensures !TooSmall(Box(80.0, 60.0, 720.0, 540.0))
  {
  }
}
