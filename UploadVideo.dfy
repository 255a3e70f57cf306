/**
 * The frame picker of the upload view (UploadVideo.js): the frames announced by the
 * extraction service, the ordered selection the user builds from them, and the
 * select-all checkbox flag.
 */
module UploadVideo {
  import opened Seqs
  import opened Selection

  class FramePicker {
    var frames: seq<string>
    var selectedFrames: seq<string>
    var selectAll: bool

    /** A fresh view: no frames, nothing selected, the flag off. */
    constructor ()
      ensures frames == [] && selectedFrames == [] && !selectAll
    {
      frames, selectedFrames, selectAll := [], [], false;
    }

    /** A `frames_extracted` event replaces the frame list wholesale; the selection is kept. */
    method FramesExtracted(announced: seq<string>)
      modifies this
      ensures frames == announced
      ensures selectedFrames == old(selectedFrames) && selectAll == old(selectAll)
    {
      frames := announced;
    }

    /**
     * A frame's checkbox: the frame's membership flips, an absent frame is appended,
     * a present one is dropped, and a duplicate-free selection stays duplicate-free.
     */
    method ToggleFrame(frame: string)
      modifies this
      ensures selectedFrames == Toggle(old(selectedFrames), frame)
      ensures frame in selectedFrames <==> frame !in old(selectedFrames)
      ensures frame !in old(selectedFrames) ==> selectedFrames == old(selectedFrames) + [frame]
      ensures NoDups(old(selectedFrames)) ==> NoDups(selectedFrames)
      ensures frames == old(frames) && selectAll == old(selectAll)
    {
      if NoDups(selectedFrames) {
        ToggleKeepsNoDups(selectedFrames, frame);
      }
      selectedFrames := Toggle(selectedFrames, frame);
    }

    /**
     * The select-all checkbox: with the flag on the selection is emptied, with it off
     * the selection becomes every frame; then the flag flips.
     */
    method SelectAll()
      modifies this
      ensures selectedFrames == if old(selectAll) then [] else frames
      ensures selectAll == !old(selectAll)
      ensures frames == old(frames)
    {
      if selectAll {
        selectedFrames := [];
      } else {
        selectedFrames := frames;
      }
      selectAll := !selectAll;
    }
  }

  /** Checking a frame twice gives the selection back as it was. */
  method ToggleTwiceScenario(picker: FramePicker, frame: string)
    requires frame !in picker.selectedFrames
    modifies picker
    ensures picker.selectedFrames == old(picker.selectedFrames)
  {
    picker.ToggleFrame(frame);
    picker.ToggleFrame(frame);
    ToggleTwiceAbsent(old(picker.selectedFrames), frame);
  }
}
