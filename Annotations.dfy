/**
 * The pure list computations behind the handlers of AnnotationTool.js: the
 * per-frame box list edits (`map` and `filter` by position) and the merge of
 * comma-separated class names into the taxonomy (`split`, `trim`, `new Set`).
 */
module Annotations {
  import opened Seqs
  import opened Text
  import opened Geometry

  /**
   * `boxes.map((ann, i) => i === index ? {...ann, class: c} : ann)`: entry `index`
   * gets class `c` and keeps its shape; every other entry stays as it was; an index
   * outside the list changes nothing.
   */
  function SetClassAt(boxes: seq<Box>, index: int, c: string): (r: seq<Box>)
    ensures 0 <= index < |boxes| ==> r == boxes[index := boxes[index].(className := c)]
    ensures !(0 <= index < |boxes|) ==> r == boxes
  {
    seq(|boxes|, k requires 0 <= k < |boxes| => if k == index then boxes[k].(className := c) else boxes[k])
  }

  /** Relabelling the same entry twice leaves only the second label. */
  lemma SetClassAtTwice(boxes: seq<Box>, index: int, c1: string, c2: string)
    ensures SetClassAt(SetClassAt(boxes, index, c1), index, c2) == SetClassAt(boxes, index, c2)
  {
  }

  /** Relabelling never changes the shapes, only the one class. */
  lemma SetClassAtKeepsShapes(boxes: seq<Box>, index: int, c: string)
    ensures |SetClassAt(boxes, index, c)| == |boxes|
    ensures forall k :: 0 <= k < |boxes| ==> SetClassAt(boxes, index, c)[k].ShapeOf() == boxes[k].ShapeOf()
  {
  }

  /**
   * `boxes.filter((_, i) => i !== index)`: the entry at `index` dropped, the entries
   * before it kept and those after it shifted down by one; an index outside the list
   * changes nothing.
   */
  function RemoveAt(boxes: seq<Box>, index: int): (r: seq<Box>)
    ensures 0 <= index < |boxes| ==> r == boxes[..index] + boxes[index + 1..]
    ensures !(0 <= index < |boxes|) ==> r == boxes
  {
    if boxes == [] then []
    else
      var rest := RemoveAt(boxes[1..], index - 1);
      assert boxes == [boxes[0]] + boxes[1..];
      if index == 0 then rest else [boxes[0]] + rest
  }

  /** Removing an entry removes exactly that one box from the multiset of boxes. */
  lemma RemoveAtMultiset(boxes: seq<Box>, index: int)
    requires 0 <= index < |boxes|
    ensures multiset(RemoveAt(boxes, index)) + multiset{boxes[index]} == multiset(boxes)
  {
    MultisetSplice(boxes, index);
  }

  /** Removing the box just appended undoes the append. */
  lemma RemoveLastAppended(boxes: seq<Box>, b: Box)
    ensures RemoveAt(boxes + [b], |boxes|) == boxes
  {
    assert (boxes + [b])[..|boxes|] == boxes;
  }

  /**
   * The class-name tokens of an input: `input.split(",").map(name => name.trim())`.
   * There is always a token; no token holds a comma, and none starts or ends with
   * whitespace.
   */
  function Tokens(input: string): (r: seq<string>)
    ensures |r| >= 1
    ensures forall i :: 0 <= i < |r| ==> ',' !in r[i] && Unpadded(r[i])
  {
    var parts := Split(input, ',');
    TrimAllKeepOut(parts, ',');
    seq(|parts|, i requires 0 <= i < |parts| => Trim(parts[i]))
  }

  /** There is one token more than there are commas in the input, empty tokens included. */
  lemma TokenCount(input: string)
    ensures |Tokens(input)| == multiset(input)[','] + 1
  {
    SplitCount(input, ',');
  }

  lemma TrimAllKeepOut(parts: seq<string>, c: char)
    requires forall i :: 0 <= i < |parts| ==> c !in parts[i]
    ensures forall i :: 0 <= i < |parts| ==> c !in Trim(parts[i])
  {
    forall i | 0 <= i < |parts| {
      TrimKeepsOut(parts[i], c);
    }
  }

  /** Tokenising comma-joined pieces that hold no comma gives back each piece, trimmed. */
  lemma TokensOfJoin(parts: seq<string>)
    requires |parts| >= 1
    requires forall i :: 0 <= i < |parts| ==> ',' !in parts[i]
    ensures |Tokens(Join(parts, ','))| == |parts|
    ensures forall i :: 0 <= i < |parts| ==> Tokens(Join(parts, ','))[i] == Trim(parts[i])
  {
    SplitJoin(parts, ',');
  }

  /** Tokenising comma-joined tokens gives back exactly those tokens. */
  lemma TokensOfJoinedTokens(tokens: seq<string>)
    requires |tokens| >= 1
    requires forall i :: 0 <= i < |tokens| ==> ',' !in tokens[i] && Unpadded(tokens[i])
    ensures Tokens(Join(tokens, ',')) == tokens
  {
    TokensOfJoin(tokens);
    forall i | 0 <= i < |tokens|
      ensures Tokens(Join(tokens, ','))[i] == tokens[i]
    {
      UnpaddedTrimmed(tokens[i]);
    }
  }

  /**
   * `[...new Set([...names, ...Tokens(input)])]`: the taxonomy after registering `input`.
   * No name is lost, every token is present, nothing else is added, and no name twice.
   */
  function MergeClassNames(names: seq<string>, input: string): (r: seq<string>)
    ensures NoDups(r)
    ensures forall n :: n in names ==> n in r
    ensures forall t :: t in Tokens(input) ==> t in r
    ensures forall n :: n in r ==> n in names || n in Tokens(input)
  {
    Dedup(names + Tokens(input))
  }

  /**
   * When the taxonomy has no duplicates, the merge keeps it as it is, in front,
   * followed by the new tokens that were not already present, in first-seen order.
   */
  lemma MergeExtends(names: seq<string>, input: string)
    requires NoDups(names)
    ensures MergeClassNames(names, input) == names + Dedup(Unseen(Tokens(input), names))
    ensures MergeClassNames(names, input)[..|names|] == names
  {
    DedupAppend(names, Tokens(input));
    assert (names + Dedup(Unseen(Tokens(input), names)))[..|names|] == names;
  }

  /** Registering the same input twice is the same as registering it once. */
  lemma MergeIdempotent(names: seq<string>, input: string)
    ensures MergeClassNames(MergeClassNames(names, input), input) == MergeClassNames(names, input)
  {
    var r := MergeClassNames(names, input);
    var t := Tokens(input);
    DedupAppend(r, t);
    UnseenCovered(t, r);
    assert r + [] == r;
  }

  /** Empty tokens survive: `"a,,b"` registers the empty string as a class name. */
  lemma EmptyTokenRegistered()
    ensures "" in MergeClassNames([], "a,,b")
  {
    assert Split("a,,b", ',')[1] == "";
    assert Tokens("a,,b")[1] == "";
  }

  /** The pieces of `"Car, Person,  Tree "` with their padding trimmed. */
  lemma ExampleTokens(input: string)
    requires input == "Car, Person,  Tree "
    ensures Tokens(input) == ["Car", "Person", "Tree"]
  {
    var parts := ["Car", " Person", "  Tree "];
    assert input == Join(parts, ',');
    TokensOfJoin(parts);
    ExampleTrims();
  }

  /** Registering `"Car, Person,  Tree "` into an empty taxonomy gives the three names, in order. */
  lemma MergeExample()
    ensures MergeClassNames([], "Car, Person,  Tree ") == ["Car", "Person", "Tree"]
  {
    var names := ["Car", "Person", "Tree"];
    ExampleTokens("Car, Person,  Tree ");
    ExampleDedup();
    assert [] + names == names;
  }

  lemma ExampleDedup()
    ensures Dedup(["Car", "Person", "Tree"]) == ["Car", "Person", "Tree"]
  {
    var names := ["Car", "Person", "Tree"];
    assert Dedup(["Car"]) == ["Car"];
    assert Dedup(["Car", "Person"]) == ["Car", "Person"] by {
      assert ["Car", "Person"][..1] == ["Car"];
      assert |"Person"| != |"Car"|;
    }
    assert names[..2] == ["Car", "Person"];
    assert |"Tree"| != |"Car"| && |"Tree"| != |"Person"|;
  }
}
