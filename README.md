# Image editor edit lock, in Dafny

This project models the edit-lock state machine of the image editor's callbacks in
`imeditor/main.py`. The callbacks decide whether the shared image may change, and how the
crop workflow and the blur-filter preview take, keep and release that right.

They coordinate through two kinds of state:

- a process-wide context with the entries `allowimagechanges`, `curop`,
  `filternotification`, `cropnotification` and `imagefilepath`;
- a few widget fields: the image view's `image` and `original_image`, the blur slider's
  value, the crop overlay's visibility, the status bar's main, `preview` and `resolution`
  entries, and the enabled state of the crop button, the blur button and the blur slider.

The project is in two layers.

- **The specification layer** is pure.
  - `EditorState.State` holds every piece of state above, grouped by the object that owns
    it: `Context`, `ImageView`, `StatusBar`.
  - Each callback is a function in `Handlers` from the state before the call to the state
    after it.
  - `Session.Dispatch` routes one user action (an `Event`) to the callback the widget tree
    wires it to. `Session.Run` plays a whole sequence of actions.
  - `EditorState.Inv` is the invariant of every reachable state. Every callback keeps it,
    and the session lemmas are proved from it. Its first conjunct is the lock pair: the
    callbacks write `allowimagechanges` and `curop` together (lines 89-90, 104-107, 128-129,
    148-149, 155-156).
- **The imperative layer** is `EditorApp.Editor`, a class.
  - Its fields are the context and the widgets, updated entry by entry as the callbacks do.
  - It has one method per callback. Each method is proved to take `Model()` to what the
    matching `Handlers` function says.

Pillow images are opaque terms: `Decoded(path, size)`, `Filtered(image, filter)` and
`Cropped(image, box, size)`. A filter keeps the size. The size of a crop result is an
input. The answers of the foreign calls are parameters of the callbacks:

- the file dialogs' result (`None` for a cancelled dialog);
- whether Pillow's `save` raises;
- what `Image.open` decoded (`None` when it raises);
- the size `crop` returns.

Python's `int()` on the slider value is modelled as truncation toward zero (`Handlers.Trunc`).

Behaviours of the source that the model reproduces:

- `curop` is never given a default, so it is an `Option` that starts as `None`. The lock
  checks read it only when `allowimagechanges` is false (lines 82, 100, 135). A slider move
  to 0 also reads it (line 151), with the lock free or held.
- `startcrop` names crop as the current operation before it looks at the overlay.
- `blurimage` blurs the image currently shown (the preview), not the snapshot. It leaves
  `original_image` in place.
- Moving the slider to 0 while the lock is free still snapshots the image, shows the
  filtered image and sets the "preview" status. It does not take the lock.
- `openimage` never looks at the lock and leaves `original_image` alone, and a held lock
  skips the re-snapshot. So a file opened during a blur preview is replaced, when the slider
  returns to 0, by the image from before the preview. The path and the status bar still
  name the new file, so a later Save writes the old image under the new name.

## Model

| member | source | states |
|---|---|---|
| EditorState.Init | imeditor/main.py:26-27 | At start-up the lock is free, no operation is named, the "can't preview" notices are not suppressed, and the reachable-state invariant holds |
| Handlers.SaveImage | imeditor/main.py:29-35 | With no open file: notifies "no image" and writes nothing. Otherwise: a failing save raises with the state untouched; a successful one writes the current image to the current path and notifies that path. Nothing else changes |
| Handlers.SaveAsImage | imeditor/main.py:37-62 | With no open file: notifies and writes nothing. A cancelled or empty dialog changes nothing. The chosen path is kept only when the save succeeds; then the image is written there, the path is notified and shown in the status bar. A failed save notifies the error and puts the previous path back. Nothing else changes |
| Handlers.OpenImage | imeditor/main.py:65-79 | A cancelled dialog changes nothing. A decode failure only adds the load-error notice. Otherwise: shows the decoded image, records its path, shows its name and size, enables every control, and changes nothing else |
| Handlers.BlurImage | imeditor/main.py:81-96 | Another operation holding the lock, or a slider value not above 0: only a notice is added. Otherwise: releases the lock, resets the slider to 0, clears the preview status, replaces the shown image by its Gaussian blur with the slider value as radius, and notifies |
| Handlers.CropBox | imeditor/main.py:114-118 | The box's width and height are the image's width and height times the part left after cutting the left and right (or top and bottom) ratios. With non-negative ratios the box lies inside the image |
| Handlers.StartCrop | imeditor/main.py:98-129 | Another operation holding the lock: only a notice is added. First step: crop takes the lock and shows the overlay; the guidance notice is added only if it was never shown, and is then marked shown. Second step: a box under 2 pixels wide or high leaves the image and resolution unchanged and notifies; any other box replaces the image by its crop and shows the new resolution. In both cases the overlay is hidden and the lock released |
| Handlers.SetFilterNotification | imeditor/main.py:131-132 | Sets the suppression flag of the "can't preview" notice to the given value and changes nothing else |
| Handlers.Trunc | imeditor/main.py:144 | `int()` on the slider value truncates toward zero: the result is the integer between 0 and the value that is less than 1 away from it |
| Handlers.FilterSliderChange | imeditor/main.py:134-157 | Conflicting move (another operation holds the lock): the slider goes back to 0; the notice is added only if the suppression flag was clear; the flag is then set; lock and image are untouched. Accepted move: the shown image is the filter applied to the snapshot, never to an already filtered image. The snapshot is the current image when the lock was free and the kept one otherwise. A positive value takes the lock; any other value leaves it as it was. Back at 0 while this filter holds the lock: the snapshot is shown again and dropped, the preview status is cleared, and the lock is released |
| Session.OpenImageKeepsInv | imeditor/main.py:65-79 | Opening a file keeps the reachable-state invariant |
| Session.SaveImageKeepsInv | imeditor/main.py:29-35 | Saving keeps the reachable-state invariant, also when the save raises |
| Session.SaveAsImageKeepsInv | imeditor/main.py:37-62 | Save As keeps the reachable-state invariant on every path |
| Session.StartCropKeepsInv | imeditor/main.py:98-129 | Both steps of the crop toggle keep the invariant: the lock is held exactly while the overlay is shown, and the guidance notice is counted by its flag |
| Session.BlurImageKeepsInv | imeditor/main.py:81-96 | Committing or refusing a blur keeps the reachable-state invariant |
| Session.SliderMovedKeepsInv | imeditor/main.py:134-157 | A slider move keeps the invariant: a positive value implies that blur holds the lock, and a snapshot exists while a filter holds it |
| Session.Dispatch | imeditor/main.py:167-212 | Routing a user action to its callback keeps the reachable-state invariant. A click on the disabled crop or blur button, or a move of the disabled slider, leaves the state unchanged |
| Session.Run | imeditor/main.py:160-227 | Every state reached by a sequence of user actions satisfies the invariant |
| Session.LockInvariant | imeditor/main.py:82-156 | In every reachable state the lock is free exactly when no operation is named |
| Session.CropGuidanceAtMostOnce | imeditor/main.py:108-111 | The crop guidance notice appears at most once per process |
| Session.StepFilterNotice | imeditor/main.py:135-140 | Every action but the rollback never clears the suppression flag. It adds a "can't preview" notice exactly when it sets the flag |
| Session.FilterNoticeAtMostOnce | imeditor/main.py:137-139 | With no rollback in between, any sequence of actions adds at most one "can't preview" notice, and none once the flag is set |
| Session.MoveDuringCrop | imeditor/main.py:135-140 | A slider move while crop holds the lock puts the slider back to 0 and sets the flag. It is notified only if the flag was clear. Nothing else changes |
| Session.ConflictNotifiesOnce | imeditor/main.py:135-140 | Two conflicting moves during a crop are both pushed back and notified once. Lock and image stay as they were |
| Session.RollbackReenablesNotice | imeditor/main.py:139 | The rollback offered by the "can't preview" notice lets the next conflicting move be notified again |
| Session.PreviewMovesKeepSnapshot | imeditor/main.py:142-149 | While blur holds the lock, positive moves change only the shown image, the slider and the preview status; the snapshot is kept |
| Session.PreviewRoundTrip | imeditor/main.py:142-156 | Preview round trip: from a free lock, any positive moves and then 0 bring back the image from before the preview and release the lock. The snapshot and the preview status are dropped, and nothing else changes |
| Session.IdleZeroMovePreviews | imeditor/main.py:142-150 | A move to 0 with the lock free snapshots the image, shows it filtered with size 0, and sets the preview status without taking the lock |
| Session.BlurCommitsPreview | imeditor/main.py:91-95 | Committing a blur preview blurs the previewed image, not the snapshot. The snapshot is kept although the lock is released |
| Session.OpenDuringPreviewRestoresOldImage | imeditor/main.py:65-79 | A file opened during a blur preview is replaced, once the slider is back at 0, by the image from before the preview, while the recorded path and the status bar name the new file |
| Session.CropTooSmallKeepsImage | imeditor/main.py:114-129 | A crop finished with a box under 2 pixels leaves the image and resolution as they were, hides the overlay, frees the lock and notifies "too small" |
| Session.CropBoxExample | imeditor/main.py:114-121 | On an 800x600 image, cutting 10% from every side gives the box (80, 60, 720, 540), which is accepted |
| EditorApp.Editor.constructor | imeditor/main.py:26-27 | The object starts in the start-up state |
| EditorApp.Editor.SaveImage | imeditor/main.py:29-35 | Does what `Handlers.SaveImage` says and reports whether the save raised |
| EditorApp.Editor.SaveAsImage | imeditor/main.py:37-62 | Does what `Handlers.SaveAsImage` says. It calls the save method after pointing the path at the chosen file, and restores the path when that raises |
| EditorApp.Editor.OpenImage | imeditor/main.py:65-79 | Does what `Handlers.OpenImage` says. A loop enables each control handed to the callback |
| EditorApp.Editor.BlurImage | imeditor/main.py:81-96 | Does what `Handlers.BlurImage` says |
| EditorApp.Editor.StartCrop | imeditor/main.py:98-129 | Does what `Handlers.StartCrop` says. The box computed step by step is the one `Handlers.CropBox` describes |
| EditorApp.Editor.SetFilterNotification | imeditor/main.py:131-132 | Does what `Handlers.SetFilterNotification` says |
| EditorApp.Editor.FilterSliderChange | imeditor/main.py:134-157 | Does what `Handlers.FilterSliderChange` says. The suppression flag is set through the set-notification method |

## Left out

- The construction of the widget tree in `runapp` (imeditor/main.py:160-227) is not modelled, nor is the event loop. The only parts kept are which callback each control triggers, which controls start disabled, the welcome text the status bar starts with (line 221), and the blur slider's filter settings (`MinFilter` with attribute `size`).
- The widget and layout framework (`imeditor/gui`, including the shared context's own code) is not part of this model. Layout recalculation calls (lines 79, 126, 146, 157) change no modelled state.
- The file dialogs, `Image.open`, `save`, `filter` and `crop` are foreign calls. They are inputs or uninterpreted terms. Pixel numerics, the file-extension registry (lines 14-24) and the dialogs' options are left out.
- The size of a cropped image is an input. Pillow rounds the float box, and the model does not relate the result's size to the box. Crop ratios are exact reals, not IEEE floats.
- Status text is abstracted. The main status is `FileName(path)`, with no basename. The "preview" entry records the filter's name, not the `title()`-cased text. Notices are a log of message kinds, with no formatted text.
- The notifier's display is not modelled: one message superseding another, and a message cleared when its rollback is used. The rollback action is offered only while the "can't preview" notice is the latest one.
- The slider's `set_value(0)` is assumed not to call the slider's change callback again. The image view's `set_image` is assumed to replace only `image`. Neither piece of code is shown. The slider is assumed to start at 0 (line 212) and the status bar with no "preview" and no "resolution" entry (line 221); those constructors are not shown either.
- The `imagefilepath` entry is never given a default in the source. The model takes it as absent (`None`) at start-up, so Save before any Open notifies "no image". An exception the shared context might raise for a missing entry is not modelled.
- Reading `curop` before anything has set it (line 151, a first slider move to 0) is taken to give `None`. An exception the shared context might raise for the missing entry is not modelled.
- Handlers.FilterSliderChange: Pillow's `filter` (line 144) is assumed not to raise for any truncated slider value, including a kernel size Pillow's rank filters may refuse (such as 0). The restore at lines 150-156, and the lemmas built on it, rely on this.
- Handlers.StartCrop: Pillow's `crop` (line 124) is assumed not to raise.
- An exception escaping `saveimage` from the Save menu item is modelled as the `Raised` outcome. What the event loop does with it is not modelled.
- EditorApp.Editor.OpenImage enables the three controls as one sequence field. Each button is not a separate object.
