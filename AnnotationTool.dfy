/**
 * The annotation view (AnnotationTool.js): a pointer-driven box-drawing state machine
 * over the displayed frame, the per-frame box list with its class labels, the class
 * taxonomy, and the `localStorage` records that keep them across frame switches.
 * React state setters and the effects they trigger are folded into each handler, so
 * every method describes the state once the view has settled after that event.
 */
module AnnotationTool {
  import opened Wrappers
  import opened Seqs
  import opened Text
  import opened Geometry
  import opened LocalStorage
  import opened Annotations

  /**
   * Where a pointer-down on the frame container came from. Every class dropdown stops
   * its own press, so none reaches the drawing logic (the handler's dropdown test only
   * repeats that filter); every other target, including a box's Remove button, whose
   * click but not press is stopped, reaches it.
   */
  datatype Origin = Surface | ClassDropdown

  /** The `<frame>` part of the key `annotations-${currentFrame}`; a null frame prints as `null`. */
  function FrameKey(frame: Option<string>): (key: string)
    ensures frame.Some? ==> key == frame.value
    ensures frame.None? ==> key == "null"
  {
    match frame
    case Some(f) => f
    case None => "null"
  }

  /**
   * Distinct frames have distinct records, but a null current frame shares its record
   * with a frame that is literally named `null`.
   */
  lemma FrameKeyCollision(a: string, b: string)
    ensures FrameKey(Some(a)) == FrameKey(Some(b)) <==> a == b
    ensures FrameKey(None) == FrameKey(Some("null"))
  {
  }

  /**
   * JavaScript truthiness of `currentFrame`: set, and not the empty string. A truthy
   * frame is keyed by its own non-empty name; the two falsy frames would read the
   * records `annotations-null` and `annotations-`, which the load effect never reads.
   */
  predicate Truthy(frame: Option<string>)
    ensures Truthy(frame) ==> frame.Some? && FrameKey(frame) == frame.value && FrameKey(frame) != ""
    ensures !Truthy(frame) ==> FrameKey(frame) == "null" || FrameKey(frame) == ""
  {
    frame.Some? && frame.value != ""
  }

  class AnnotationTool {
    /** The frames handed over by the upload view (`location.state.selectedFrames`). */
    const selectedFrames: seq<string>
    var currentFrame: Option<string>
    var annotations: seq<Box>
    var isDrawing: bool
    var startX: real
    var startY: real
    var currentBox: Option<Shape>
    var classNames: seq<string>
    var inputValue: string
    /** The page's `localStorage`. */
    var storage: Store

    /**
     * A preview exists only while a gesture is in progress and is never inverted;
     * the taxonomy holds no name twice.
     */
    ghost predicate Valid()
      reads this
    {
      (currentBox.Some? ==> isDrawing && currentBox.value.width >= 0.0 && currentBox.value.height >= 0.0)
      && NoDups(classNames)
    }

    /** The list on screen is the one recorded under the current frame's key. */
    ghost predicate Persisted()
      reads this
    {
      annotations == LoadBoxes(storage, FrameKey(currentFrame))
    }

    /**
     * Mounting the view: the first selected frame becomes current, and the load effect
     * shows what is recorded for it (`[]` when nothing is).
     */
    constructor (selectedFrames: seq<string>, storage: Store)
      ensures Valid()
      ensures this.selectedFrames == selectedFrames && this.storage == storage
      ensures currentFrame == if selectedFrames != [] then Some(selectedFrames[0]) else None
      ensures annotations == if Truthy(currentFrame) then LoadBoxes(storage, currentFrame.value) else []
      ensures Truthy(currentFrame) ==> Persisted()
      ensures !isDrawing && currentBox == None && startX == 0.0 && startY == 0.0
      ensures classNames == [] && inputValue == ""
    {
      this.selectedFrames := selectedFrames;
      this.storage := storage;
      isDrawing, startX, startY, currentBox := false, 0.0, 0.0, None;
      classNames, inputValue := [], "";
      currentFrame := if selectedFrames != [] then Some(selectedFrames[0]) else None;
      annotations := [];
      new;
      if Truthy(currentFrame) {
        annotations := LoadBoxes(storage, currentFrame.value);
      }
    }

    /**
     * Pointer-down: from the class dropdown nothing happens; otherwise a gesture starts
     * with the anchor at the pointer, relative to the container and not clamped.
     * An earlier preview is not cleared.
     */
    method PointerDown(origin: Origin, clientX: real, clientY: real, rect: Rect)
      requires Valid()
      modifies this
      ensures Valid()
      ensures origin == ClassDropdown ==> unchanged(this)
      ensures origin == Surface ==> isDrawing && startX == clientX - rect.left && startY == clientY - rect.top
      ensures currentBox == old(currentBox) && annotations == old(annotations) && storage == old(storage)
      ensures currentFrame == old(currentFrame) && classNames == old(classNames) && inputValue == old(inputValue)
    {
      if origin == ClassDropdown {
        return;
      }
      startX := clientX - rect.left;
      startY := clientY - rect.top;
      isDrawing := true;
    }

    /**
     * Pointer-move: while drawing, the preview becomes the box from the anchor to the
     * pointer clamped to the container; when the anchor lies inside the container the
     * whole preview does. Outside a gesture nothing happens.
     */
    method PointerMove(clientX: real, clientY: real, rect: Rect)
      requires Valid()
      modifies this
      ensures Valid()
      ensures !old(isDrawing) ==> unchanged(this)
      ensures old(isDrawing) ==> currentBox == Some(MovePreview(startX, startY, clientX, clientY, rect))
      ensures old(isDrawing) && InRect(startX, startY, rect) ==> Within(currentBox.value, rect.width, rect.height)
      ensures isDrawing == old(isDrawing) && startX == old(startX) && startY == old(startY)
      ensures annotations == old(annotations) && storage == old(storage)
      ensures currentFrame == old(currentFrame) && classNames == old(classNames) && inputValue == old(inputValue)
    {
      if !isDrawing {
        return;
      }
      currentBox := Some(MovePreview(startX, startY, clientX, clientY, rect));
    }

    /**
     * Pointer-up: a gesture with a preview appends exactly one box, the preview with an
     * unassigned class, and records the new list; in every case the gesture ends.
     */
    method PointerUp()
      requires Valid()
      modifies this
      ensures Valid()
      ensures old(isDrawing && currentBox.Some?) ==>
        && annotations == old(annotations) + [Finish(old(currentBox).value)]
        && annotations[|annotations| - 1].width >= 0.0 && annotations[|annotations| - 1].height >= 0.0
        && storage == SaveBoxes(old(storage), FrameKey(currentFrame), annotations)
        && Persisted()
      ensures !old(isDrawing && currentBox.Some?) ==> annotations == old(annotations) && storage == old(storage)
      ensures !isDrawing && currentBox == None
      ensures startX == old(startX) && startY == old(startY)
      ensures currentFrame == old(currentFrame) && classNames == old(classNames) && inputValue == old(inputValue)
    {
      if isDrawing && currentBox.Some? {
        var updated := annotations + [Finish(currentBox.value)];
        annotations := updated;
        storage := SaveBoxes(storage, FrameKey(currentFrame), updated);
      }
      isDrawing := false;
      currentBox := None;
    }

    /** Assign class `c` to box `index` and record the list. */
    method ChangeClass(index: int, c: string)
      requires Valid()
      modifies this
      ensures Valid()
      ensures annotations == SetClassAt(old(annotations), index, c)
      ensures storage == SaveBoxes(old(storage), FrameKey(currentFrame), annotations)
      ensures Persisted()
      ensures isDrawing == old(isDrawing) && currentBox == old(currentBox) && startX == old(startX) && startY == old(startY)
      ensures currentFrame == old(currentFrame) && classNames == old(classNames) && inputValue == old(inputValue)
    {
      var updated := SetClassAt(annotations, index, c);
      annotations := updated;
      storage := SaveBoxes(storage, FrameKey(currentFrame), updated);
    }

    /** Remove box `index` and record the list. */
    method RemoveAnnotation(index: int)
      requires Valid()
      modifies this
      ensures Valid()
      ensures annotations == RemoveAt(old(annotations), index)
      ensures storage == SaveBoxes(old(storage), FrameKey(currentFrame), annotations)
      ensures Persisted()
      ensures isDrawing == old(isDrawing) && currentBox == old(currentBox) && startX == old(startX) && startY == old(startY)
      ensures currentFrame == old(currentFrame) && classNames == old(classNames) && inputValue == old(inputValue)
    {
      var updated := RemoveAt(annotations, index);
      annotations := updated;
      storage := SaveBoxes(storage, FrameKey(currentFrame), updated);
    }

    /** Typing in the class-name field only updates its text. */
    method ClassNamesChange(value: string)
      requires Valid()
      modifies this
      ensures Valid()
      ensures inputValue == value
      ensures annotations == old(annotations) && storage == old(storage) && classNames == old(classNames)
      ensures isDrawing == old(isDrawing) && currentBox == old(currentBox) && startX == old(startX) && startY == old(startY)
      ensures currentFrame == old(currentFrame)
    {
      inputValue := value;
    }

    /**
     * Leaving the class-name field: blank text changes nothing; otherwise its tokens
     * are merged into the taxonomy, which is recorded. No name is ever lost. The text
     * stays in the field.
     */
    method ClassNamesBlur()
      requires Valid()
      modifies this
      ensures Valid()
      ensures IsBlank(inputValue) ==> unchanged(this)
      ensures !IsBlank(inputValue) ==>
        classNames == MergeClassNames(old(classNames), inputValue) && storage == SaveClassNames(old(storage), classNames)
      ensures forall n :: n in old(classNames) ==> n in classNames
      ensures inputValue == old(inputValue) && annotations == old(annotations)
      ensures isDrawing == old(isDrawing) && currentBox == old(currentBox) && startX == old(startX) && startY == old(startY)
      ensures currentFrame == old(currentFrame)
    {
      TrimEmptyIffBlank(inputValue);
      if Trim(inputValue) == "" {
        return;
      }
      var updated := MergeClassNames(classNames, inputValue);
      assert NoDups(updated) && forall n :: n in classNames ==> n in updated;
      classNames := updated;
      storage := SaveClassNames(storage, updated);
    }

    /**
     * Choosing a frame in the selector: the list is cleared and, when the frame differs
     * from the current one and is not empty, the load effect shows what is recorded for
     * it. A gesture in progress is not interrupted.
     */
    method ChangeFrame(frame: string)
      requires Valid()
      modifies this
      ensures Valid()
      ensures currentFrame == Some(frame)
      ensures annotations == if Some(frame) != old(currentFrame) && frame != "" then LoadBoxes(storage, frame) else []
      ensures Some(frame) != old(currentFrame) && frame != "" ==> Persisted()
      ensures storage == old(storage)
      ensures isDrawing == old(isDrawing) && currentBox == old(currentBox) && startX == old(startX) && startY == old(startY)
      ensures classNames == old(classNames) && inputValue == old(inputValue)
    {
      var changed := Some(frame) != currentFrame;
      currentFrame := Some(frame);
      annotations := [];
      if changed && Truthy(currentFrame) {
        annotations := LoadBoxes(storage, frame);
      }
    }

    /**
     * The Train Model button: refused while the current list is empty; otherwise the
     * list is recorded as the hand-off and the view navigates to training.
     */
    method RequestTraining() returns (navigate: bool)
      requires Valid()
      modifies this
      ensures Valid()
      ensures navigate <==> annotations != []
      ensures !navigate ==> unchanged(this)
      ensures navigate ==> storage == SaveHandoff(old(storage), annotations)
      ensures annotations == old(annotations) && classNames == old(classNames) && inputValue == old(inputValue)
      ensures isDrawing == old(isDrawing) && currentBox == old(currentBox) && startX == old(startX) && startY == old(startY)
      ensures currentFrame == old(currentFrame)
    {
      if |annotations| == 0 {
        return false;
      }
      storage := SaveHandoff(storage, annotations);
      return true;
    }
  }

  /**
   * Two frames; a box drawn on the first and labelled survives a switch to the second
   * (which shows nothing) and back.
   */
  method FrameSwitchScenario() {
    var rect := Rect(100.0, 50.0, 640.0, 480.0);
    var tool := new AnnotationTool(["f1", "f2"], Empty());
    assert tool.currentFrame == Some("f1") && tool.annotations == [];
    tool.PointerDown(Surface, 110.0, 60.0, rect);
    tool.PointerMove(160.0, 90.0, rect);
    tool.PointerUp();
    assert tool.annotations == [Box(10.0, 10.0, 50.0, 30.0, "")];
    tool.ChangeClass(0, "Car");
    tool.ChangeFrame("f2");
    assert tool.annotations == [];
    tool.ChangeFrame("f1");
    assert tool.annotations == [Box(10.0, 10.0, 50.0, 30.0, "Car")];
  }

  /** Press and release without a move records nothing. */
  method ClickScenario() {
    var rect := Rect(0.0, 0.0, 640.0, 480.0);
    var tool := new AnnotationTool(["f1"], Empty());
    tool.PointerDown(Surface, 5.0, 5.0, rect);
    tool.PointerUp();
    assert tool.annotations == [] && !tool.isDrawing;
  }

  /** A box drawn and then removed leaves an empty list, and the empty list is recorded. */
  method DrawRemoveScenario() {
    var rect := Rect(0.0, 0.0, 640.0, 480.0);
    var tool := new AnnotationTool(["f1"], Empty());
    tool.PointerDown(Surface, 50.0, 40.0, rect);
    tool.PointerMove(20.0, 700.0, rect);
    tool.PointerUp();
    assert tool.annotations == [Box(20.0, 40.0, 30.0, 440.0, "")];
    tool.RemoveAnnotation(0);
    assert tool.annotations == [] && LoadBoxes(tool.storage, "f1") == [];
  }

  /**
   * A release outside the container reaches no handler, so the gesture survives it. The
   * pointer's way back in is a move that still stretches the preview from the old
   * anchor; the next press moves the anchor but not the preview, so the release records
   * the box from the old anchor to the last move.
   */
  method StalePreviewScenario() {
    var rect := Rect(0.0, 0.0, 640.0, 480.0);
    var tool := new AnnotationTool(["f1"], Empty());
    tool.PointerDown(Surface, 10.0, 10.0, rect);
    tool.PointerMove(30.0, 40.0, rect);
    // released outside the container: no handler runs
    tool.PointerMove(300.0, 300.0, rect);
    tool.PointerDown(Surface, 300.0, 300.0, rect);
    tool.PointerUp();
    assert tool.annotations == [Box(10.0, 10.0, 290.0, 290.0, "")];
  }

  /**
   * Switching frames does not end a gesture: a box started on one frame and released
   * after the switch is recorded under the new frame.
   */
  method SwitchDuringDrawScenario() {
    var rect := Rect(0.0, 0.0, 640.0, 480.0);
    var tool := new AnnotationTool(["f1", "f2"], Empty());
    tool.PointerDown(Surface, 10.0, 10.0, rect);
    tool.PointerMove(30.0, 40.0, rect);
    tool.ChangeFrame("f2");
    tool.PointerUp();
    assert LoadBoxes(tool.storage, "f2") == [Box(10.0, 10.0, 20.0, 30.0, "")];
    assert LoadBoxes(tool.storage, "f1") == [];
  }
}
