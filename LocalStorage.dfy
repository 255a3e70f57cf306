/**
 * The browser's `localStorage` as the components use it, with JSON encoding taken
 * as the identity. Three kinds of record exist:
 *   `annotations-<frame>` - the boxes of one frame, kept in `frames` under `<frame>`;
 *   `classNames`          - the class taxonomy;
 *   `annotations`         - the boxes handed from the annotation view to the training view.
 * The `annotations-` prefix makes the per-frame keys distinct from the other two and
 * from one another, so a map keyed by the frame part stands for all of them.
 */
module LocalStorage {
  import opened Wrappers
  import opened Geometry

  datatype Store = Store(frames: map<string, seq<Box>>, classNames: Option<seq<string>>, handoff: Option<seq<Box>>)

  /** A store with no records. */
  function Empty(): Store {
    Store(map[], None, None)
  }

  /** The boxes recorded for `frame`, or `[]` when there is no record. */
  function LoadBoxes(st: Store, frame: string): (boxes: seq<Box>)
    ensures frame in st.frames ==> boxes == st.frames[frame]
    ensures frame !in st.frames ==> boxes == []
  {
    if frame in st.frames then st.frames[frame] else []
  }

  /** A frame with no record reads exactly like a frame whose record is the empty list. */
  lemma MissingReadsAsEmpty(st: Store, frame: string)
    requires frame !in st.frames
    ensures LoadBoxes(st, frame) == LoadBoxes(SaveBoxes(st, frame, []), frame) == []
  {
  }

  /** Overwrite the record of `frame` with `boxes` (`setItem` of the whole list). */
  function SaveBoxes(st: Store, frame: string, boxes: seq<Box>): (r: Store)
    ensures LoadBoxes(r, frame) == boxes
    ensures forall f :: f != frame ==> LoadBoxes(r, f) == LoadBoxes(st, f)
    ensures r.classNames == st.classNames && r.handoff == st.handoff
  {
    st.(frames := st.frames[frame := boxes])
  }

  /** A later write to the same frame replaces an earlier one entirely. */
  lemma LastWriteWins(st: Store, frame: string, first: seq<Box>, second: seq<Box>)
    ensures SaveBoxes(SaveBoxes(st, frame, first), frame, second) == SaveBoxes(st, frame, second)
  {
    assert SaveBoxes(SaveBoxes(st, frame, first), frame, second).frames == st.frames[frame := second];
  }

  /** Overwrite the `classNames` record; the box records are untouched. */
  function SaveClassNames(st: Store, names: seq<string>): (r: Store)
    ensures r.classNames == Some(names)
    ensures forall f :: LoadBoxes(r, f) == LoadBoxes(st, f)
    ensures r.handoff == st.handoff
  {
    st.(classNames := Some(names))
  }

  /** Overwrite the `annotations` hand-off record; the other records are untouched. */
  function SaveHandoff(st: Store, boxes: seq<Box>): (r: Store)
    ensures r.handoff == Some(boxes)
    ensures forall f :: LoadBoxes(r, f) == LoadBoxes(st, f)
    ensures r.classNames == st.classNames
  {
    st.(handoff := Some(boxes))
  }
}
