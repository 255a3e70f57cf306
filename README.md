# Annotation engine of a YOLO training front end, in Dafny

This project models the client-side core of a small web application that turns a video
into labelled training data for an object detector. Three React views make up that core:

- **AnnotationTool** (`AnnotationTool.dfy`, class `AnnotationTool.AnnotationTool`): the user
  draws rectangular boxes on an extracted frame with the pointer, labels each box with a
  class name, removes boxes, registers class names from a comma-separated text field,
  switches between the selected frames, and hands the current frame's boxes over to
  training. Every change to a frame's box list is written to the browser's `localStorage`
  under `annotations-<frame>`, and switching back to a frame reloads that record.
- **UploadVideo** (`UploadVideo.dfy`, class `UploadVideo.FramePicker`): the frames announced by
  the extraction service, the ordered selection the user builds from them with checkboxes,
  and a select-all flag.
- **TrainModel** (`TrainModel.dfy`, class `TrainModel.ClassPicker`): the class list read from
  storage, the ordered selection of classes to train on, and the guard that refuses to train
  with nothing selected.

Each view is a class whose fields are the component's state variables, and each handler is a
method. A React state update and the effects it triggers are folded into one method, which
describes the state once the view has settled after the event. The new lists the handlers
compute with `map`, `filter`, spread, `split`, `trim` and `new Set` are pure functions in
their own modules, with lemmas for their properties:

- `Seqs`: filtering out one value (`Without`), first-occurrence deduplication (`Dedup`) and
  the new elements of one list relative to another (`Unseen`).
- `Selection`: the checkbox toggle that both pickers share.
- `Text`: ECMAScript `trim` and one-character `split`, with `Join` as the inverse of `split`.
- `Geometry`: rectangles, the clamped pointer and the live preview box.
- `LocalStorage`: the storage records as a value.
- `Annotations`: edits to the box list and the merge of class names.
- `Wrappers`: `Option`.

Storage is a value of type `LocalStorage.Store`. JSON encoding is taken as the identity. The
per-frame records are kept in a map keyed by the part of the key that follows
`annotations-`. A null frame contributes the text `null`, as in JavaScript template
strings. The annotation view holds the store as a field. The training view receives it when
it mounts.

Pointer coordinates and the container's bounding rectangle are `real` parameters of the
handlers, and the arithmetic on them is exact. A pointer-down carries its origin: either the
class dropdown, which the handler ignores, or anything else in the container.

## Model

| member | source | states |
|---|---|---|
| `Seqs.Without` | frontend/src/components/UploadVideo.js:94 | Filtering out `x` leaves no `x`. It keeps the membership and the number of occurrences of every other value. |
| `Seqs.WithoutAppend` | frontend/src/components/UploadVideo.js:94 | Filtering distributes over concatenation, so the entries that remain keep their relative order. |
| `Seqs.WithoutAbsent` | frontend/src/components/TrainModel.js:21 | Filtering out a value that is not there returns the list unchanged. |
| `Seqs.WithoutNoDups` | frontend/src/components/UploadVideo.js:94 | Filtering keeps a duplicate-free list duplicate-free. |
| `Seqs.Unseen` | frontend/src/components/AnnotationTool.js:105 | The result holds exactly the elements of `b` that are not in `a`. |
| `Seqs.Dedup` | frontend/src/components/AnnotationTool.js:105 | `[...new Set(s)]` has no duplicates and holds exactly the elements of `s`. |
| `Seqs.DedupOfNoDups` | frontend/src/components/AnnotationTool.js:105 | A list without duplicates passes through the `Set` unchanged, order included. |
| `Seqs.DedupAppend` | frontend/src/components/AnnotationTool.js:105 | Deduplicating `a + b`, with `a` duplicate-free, gives `a` unchanged in front, then the new elements of `b` in first-seen order. |
| `Seqs.DedupIdempotent` | frontend/src/components/AnnotationTool.js:105 | Deduplicating twice is the same as deduplicating once. |
| `Selection.Toggle` | frontend/src/components/UploadVideo.js:91-97 | Toggling flips the membership of the toggled item and leaves the membership of every other item unchanged. |
| `Selection.ToggleAbsent` | frontend/src/components/UploadVideo.js:93-95 | Toggling an absent item appends it at the end. The earlier entries are unchanged. |
| `Selection.TogglePresent` | frontend/src/components/UploadVideo.js:93-94 | Toggling a present item removes all of its occurrences. The entries before and after it keep their order and counts. |
| `Selection.ToggleTwiceAbsent` | frontend/src/components/UploadVideo.js:91-97 | Toggling an absent item twice restores the original selection exactly. |
| `Selection.ToggleTwicePresent` | frontend/src/components/TrainModel.js:18-24 | Toggling a present item twice is not the identity. The item comes back once, at the end. |
| `Selection.ToggleKeepsNoDups` | frontend/src/components/UploadVideo.js:91-97 | A selection without duplicates stays without duplicates after a toggle. |
| `Text.TrimStart` | frontend/src/components/AnnotationTool.js:104 | Removing leading whitespace never lengthens the text, and what remains is empty or starts with a non-whitespace character. |
| `Text.TrimEnd` | frontend/src/components/AnnotationTool.js:104 | Removing trailing whitespace never lengthens the text, and what remains is empty or ends with a non-whitespace character. |
| `Text.Trim` | frontend/src/components/AnnotationTool.js:102-104 | `trim()` never lengthens the text, and its result is empty or neither starts nor ends with whitespace. |
| `Text.TrimKeepsOut` | frontend/src/components/AnnotationTool.js:104 | Trimming adds no character: a character absent from the input is absent from its trim. |
| `Text.UnpaddedTrimmed` | frontend/src/components/AnnotationTool.js:104 | Text that neither starts nor ends with whitespace is its own trim. |
| `Text.TrimStartCuts` | frontend/src/components/AnnotationTool.js:104 | Trimming the start cuts a whitespace-only prefix and leaves a suffix that starts with a non-whitespace character or is empty. |
| `Text.TrimEndCuts` | frontend/src/components/AnnotationTool.js:104 | Trimming the end cuts a whitespace-only suffix and leaves a prefix that ends with a non-whitespace character or is empty. |
| `Text.TrimCuts` | frontend/src/components/AnnotationTool.js:104 | `trim()` returns a contiguous slice of its input. Only whitespace was cut from each side, and the slice neither starts nor ends with whitespace. |
| `Text.TrimEmptyIffBlank` | frontend/src/components/AnnotationTool.js:102 | The trimmed input is empty exactly when the input is blank or whitespace-only. |
| `Text.TrimIdempotent` | frontend/src/components/AnnotationTool.js:104 | Trimming twice is the same as trimming once. |
| `Text.Split` | frontend/src/components/AnnotationTool.js:104 | `split(",")` always yields at least one piece, and no piece contains the separator. |
| `Text.SplitCount` | frontend/src/components/AnnotationTool.js:104 | `split(",")` yields exactly one piece more than there are separators in the input. |
| `Text.JoinSplit` | frontend/src/components/AnnotationTool.js:104 | Joining the pieces with the separator gives back the input, so splitting loses nothing. |
| `Text.SplitJoin` | frontend/src/components/AnnotationTool.js:104 | Splitting a join of separator-free pieces gives back those pieces, empty ones included. |
| `Geometry.Clamp` | frontend/src/components/AnnotationTool.js:50-51 | The clamped coordinate is at least 0 and at most the extent when the extent is non-negative. A value already in range is unchanged, and a value past an end becomes that end. |
| `Geometry.Preview` | frontend/src/components/AnnotationTool.js:52-57 | The preview has non-negative width and height. Its left and right edges are the anchor's and the corner's x, and its top and bottom edges their y, for every drag direction. |
| `Geometry.PreviewSymmetric` | frontend/src/components/AnnotationTool.js:52-57 | Swapping the anchor and the moving corner gives the same box. |
| `Geometry.MovePreview` | frontend/src/components/AnnotationTool.js:49-57 | The preview of a move has non-negative size. When the anchor lies inside the rectangle, the box satisfies `x >= 0`, `y >= 0`, `x + width <= rect.width` and `y + height <= rect.height`. |
| `Geometry.MovePreviewUnclamped` | frontend/src/components/AnnotationTool.js:50-57 | With the pointer inside the rectangle, the preview spans exactly from the anchor to the pointer. |
| `Geometry.Finish` | frontend/src/components/AnnotationTool.js:62 | A finished box has exactly the preview's geometry and the empty class. |
| `LocalStorage.LoadBoxes` | frontend/src/components/AnnotationTool.js:29-30 | A frame's record is read back as stored, and a frame with no record reads as `[]`. |
| `LocalStorage.MissingReadsAsEmpty` | frontend/src/components/AnnotationTool.js:29-30 | A frame with no record reads exactly like a frame whose record is the empty list. |
| `LocalStorage.SaveBoxes` | frontend/src/components/AnnotationTool.js:65 | After a write, reading the same frame's record gives exactly the written list. Every other frame's record, the class names and the hand-off are unchanged. |
| `LocalStorage.LastWriteWins` | frontend/src/components/AnnotationTool.js:76 | A second write to the same frame's record replaces the first one completely. |
| `LocalStorage.SaveClassNames` | frontend/src/components/AnnotationTool.js:107 | The `classNames` record becomes the given list. No box record and not the hand-off change. |
| `LocalStorage.SaveHandoff` | frontend/src/components/AnnotationTool.js:123 | The `annotations` hand-off record becomes the given list. No box record and not the class names change. |
| `Annotations.SetClassAt` | frontend/src/components/AnnotationTool.js:72-74 | With a valid index, only that entry's class changes. An index out of range leaves the list unchanged. |
| `Annotations.SetClassAtTwice` | frontend/src/components/AnnotationTool.js:71-77 | Relabelling the same entry twice leaves only the second label. |
| `Annotations.SetClassAtKeepsShapes` | frontend/src/components/AnnotationTool.js:72-74 | Relabelling keeps the length and the geometry of every entry. |
| `Annotations.RemoveAt` | frontend/src/components/AnnotationTool.js:80 | With a valid index, the entries before it stay in place and the entries after it shift down by one. An index out of range leaves the list unchanged. |
| `Annotations.RemoveAtMultiset` | frontend/src/components/AnnotationTool.js:79-83 | Removal takes exactly the removed box out of the multiset of boxes. |
| `Annotations.RemoveLastAppended` | frontend/src/components/AnnotationTool.js:79-83 | Removing the box that was just appended restores the list as it was before the append. |
| `Annotations.Tokens` | frontend/src/components/AnnotationTool.js:104 | There is always at least one token. No token holds a comma, and none starts or ends with whitespace. |
| `Annotations.TokenCount` | frontend/src/components/AnnotationTool.js:104 | There is one token more than there are commas, empty tokens included. |
| `Annotations.TokensOfJoin` | frontend/src/components/AnnotationTool.js:104 | Tokenising comma-joined, comma-free pieces gives one token per piece, each the piece trimmed. |
| `Annotations.TokensOfJoinedTokens` | frontend/src/components/AnnotationTool.js:104 | Tokenising comma-joined tokens gives back exactly those tokens, so tokenisation and joining are inverse on its own output. |
| `Annotations.MergeClassNames` | frontend/src/components/AnnotationTool.js:104-105 | The merged taxonomy has no duplicates, loses no old name, contains every token and nothing else. |
| `Annotations.MergeExtends` | frontend/src/components/AnnotationTool.js:104-105 | A duplicate-free taxonomy stays in front, unchanged and in order. After it come the new tokens that were not already present, in first-seen order. |
| `Annotations.MergeIdempotent` | frontend/src/components/AnnotationTool.js:101-109 | Registering the same input twice gives the same taxonomy as registering it once. |
| `Annotations.EmptyTokenRegistered` | frontend/src/components/AnnotationTool.js:104 | `"a,,b"` registers the empty string as a class name, because empty tokens are not discarded. |
| `Annotations.MergeExample` | frontend/src/components/AnnotationTool.js:104-105 | `"Car, Person,  Tree "` registered into an empty taxonomy gives exactly `["Car", "Person", "Tree"]`. |
| `AnnotationTool.FrameKey` | frontend/src/components/AnnotationTool.js:29 | The record key of a set frame is the frame's own name, and a null frame is keyed `null`. The same key is written at lines 65, 76 and 82. |
| `AnnotationTool.FrameKeyCollision` | frontend/src/components/AnnotationTool.js:65 | Distinct frames get distinct records, but a null current frame shares its record with a frame named `null`. |
| `AnnotationTool.Truthy` | frontend/src/components/AnnotationTool.js:28 | A truthy frame is keyed by its own non-empty name. A falsy frame would read the record `annotations-null` or `annotations-`. |
| `AnnotationTool.AnnotationTool.constructor` | frontend/src/components/AnnotationTool.js:21-32 | On mount, the first selected frame becomes current when the selection is non-empty. The list shown is that frame's record, or `[]` when there is no record or no frame. There is no gesture and the taxonomy is empty. |
| `AnnotationTool.AnnotationTool.PointerDown` | frontend/src/components/AnnotationTool.js:34-45 | A press on the dropdown changes nothing. Any other press starts a gesture, with the anchor at the pointer minus the rectangle's offset and no clamping. The preview and all other state are unchanged. |
| `AnnotationTool.AnnotationTool.PointerMove` | frontend/src/components/AnnotationTool.js:47-58 | Outside a gesture, a move changes nothing. During a gesture, the preview becomes the box from the anchor to the clamped pointer, inside the rectangle whenever the anchor is. Nothing else changes. |
| `AnnotationTool.AnnotationTool.PointerUp` | frontend/src/components/AnnotationTool.js:60-69 | A gesture with a preview appends exactly one box: the preview, non-negative in size, with class `""`. The new list is recorded under the current frame. Otherwise the list and storage are unchanged. Either way, the gesture ends and the preview is cleared. |
| `AnnotationTool.AnnotationTool.ChangeClass` | frontend/src/components/AnnotationTool.js:71-77 | The list becomes the relabelled list, which is recorded under the current frame. The drawing state, frame and taxonomy are unchanged. |
| `AnnotationTool.AnnotationTool.RemoveAnnotation` | frontend/src/components/AnnotationTool.js:79-83 | The list loses the entry at the index, or stays the same for an index out of range. The result is recorded under the current frame, and nothing else changes. |
| `AnnotationTool.AnnotationTool.ClassNamesChange` | frontend/src/components/AnnotationTool.js:97-99 | Typing updates only the text of the class-name field. |
| `AnnotationTool.AnnotationTool.ClassNamesBlur` | frontend/src/components/AnnotationTool.js:101-109 | Blank text changes nothing, storage included. Otherwise the taxonomy becomes the merge and is recorded. No name is ever lost, and the taxonomy stays duplicate-free. |
| `AnnotationTool.AnnotationTool.ChangeFrame` | frontend/src/components/AnnotationTool.js:113-116 | The chosen frame becomes current. The list shown is that frame's record when the frame differs from the previous one and is not empty, and `[]` otherwise. Storage and any gesture in progress are unchanged. |
| `AnnotationTool.AnnotationTool.RequestTraining` | frontend/src/components/AnnotationTool.js:118-125 | With an empty list, the request is refused and nothing changes. Otherwise the list is recorded as the hand-off and the view navigates. |
| `UploadVideo.FramePicker.constructor` | frontend/src/components/UploadVideo.js:13-15 | A fresh view has no frames, an empty selection and the select-all flag off. |
| `UploadVideo.FramePicker.FramesExtracted` | frontend/src/components/UploadVideo.js:24-26 | A `frames_extracted` event replaces the frame list wholesale. The selection and the flag are unchanged. |
| `UploadVideo.FramePicker.ToggleFrame` | frontend/src/components/UploadVideo.js:91-97 | The toggled frame's membership flips, and an absent frame is appended at the end. A duplicate-free selection stays duplicate-free. |
| `UploadVideo.FramePicker.SelectAll` | frontend/src/components/UploadVideo.js:99-106 | With the flag on, the selection empties. With it off, the selection becomes the frame list. The flag is negated afterwards. |
| `UploadVideo.ToggleTwiceScenario` | frontend/src/components/UploadVideo.js:91-97 | Checking an unselected frame twice leaves the selection as it was. |
| `TrainModel.LengthTestIsAllSelected` | frontend/src/components/TrainModel.js:26-32 | The select-all rule tests lengths only. For duplicate-free lists whose selected classes are all listed, equal lengths hold exactly when every class is selected. |
| `TrainModel.ClassPicker.constructor` | frontend/src/components/TrainModel.js:11-16 | On mount, the classes are the stored `classNames` list, or `[]` when there is none, and all of them are selected. |
| `TrainModel.ClassPicker.ToggleClass` | frontend/src/components/TrainModel.js:18-24 | The toggled class's membership flips. The consistency of the lists is kept when the class is listed. |
| `TrainModel.ClassPicker.SelectAll` | frontend/src/components/TrainModel.js:26-32 | With the selection as long as the class list, it empties. Otherwise it becomes the class list. On consistent lists this means "all selected" versus "not all selected". |
| `TrainModel.ClassPicker.Train` | frontend/src/components/TrainModel.js:34-38 | With nothing selected, the warning message is set and no request is issued. Otherwise a request for exactly the selected classes is issued. |

The client methods `FrameSwitchScenario`, `ClickScenario`, `DrawRemoveScenario`,
`StalePreviewScenario` and `SwitchDuringDrawScenario` in `AnnotationTool.dfy` are proved
from the method contracts alone. They cover the following sequences:

- A box drawn on frame `f1` and labelled `"Car"` is gone on `f2` and comes back unchanged on `f1`.
- A press and release without a move records nothing.
- A box drawn and then removed leaves an empty record.
- A release outside the container does not end the gesture. The move back into the container stretches the preview from the old anchor, and the next press and release inside records the box from the old anchor to that last move.
- A box started on one frame and released after a frame switch is recorded under the new frame.

### Where the code and its written description differ (the model follows the code)

- Class-name registration keeps empty tokens: `"a,,b"` registers `""` (`EmptyTokenRegistered`).
- A frame switch does not reset `isDrawing` or the preview (`ChangeFrame`, `SwitchDuringDrawScenario`).
- A Remove button does not stop the pointer-down from reaching the drawing handler. Only its click is stopped, so its press counts as `Surface`. Every class dropdown stops its own press, so a press on any dropdown is `ClassDropdown`.
- A press and release with no move between them records no box. `currentBox` is only set by a move.
- The training view seeds its classes from the `classNames` record, not from the `annotations` hand-off.
- The annotation view starts with an empty taxonomy on every mount and never reads `classNames`. Registering after a remount therefore overwrites the stored list with the new names only.

## Left out

- Network calls: saving annotations to the server (`saveAnnotations`), uploading a video (`uploadFile`, `handleFileChange`, `handleDrop`), and the training request with its response. Each of these is I/O.
- `TrainModel.ClassPicker.Train`: the model stops at the decision to send the request. The message set later from the server's answer or from a failure is not modelled, because it comes from the network.
- The `epochs` value of the training view. It is only passed through to the training request.
- Toast notifications, `window.location` and `navigate` redirects, and the `onUpload` and `onAnnotate` callbacks (`handleAnnotate`). These are user-interface side effects with no state of the core.
- Socket.IO: `frame_progress`, `frame_extraction_error` and `disconnect`. Only `frames_extracted` changes the state modelled here.
- Drag-over styling (`isDragging`), the chosen `file`, `uploadProgress` and all JSX rendering.
- `getBoundingClientRect` and pointer coordinates are parameters, not measurements.
- JavaScript numbers are IEEE doubles. The model uses exact reals, so rounding is not captured.
- JavaScript strings are sequences of UTF-16 code units, and a Dafny `char` is a Unicode scalar value. Lone surrogates therefore cannot be represented. No behaviour of the core depends on this, because every whitespace character and the comma lie in the Basic Multilingual Plane.
- JSON encoding and decoding are the identity. Malformed stored records are not modelled.
- React scheduling: the intermediate render between a state update and the effect it triggers is not modelled. Each method gives the settled state.
- `AnnotationTool.AnnotationTool.PointerDown`: `preventDefault` has no modelled state. Which pointer-downs count as coming from the dropdown is given by the `Origin` parameter, not derived from the DOM and its `ref`.
- The backend (Flask routes, YOLO format conversion, frame sampling) and the routing in `App.js` are not part of this model.
