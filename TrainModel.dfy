/**
 * The training view (TrainModel.js): the class list read from the `classNames`
 * record, the ordered selection of classes to train on, and the status message.
 */
module TrainModel {
  import opened Wrappers
  import opened Seqs
  import opened Selection
  import opened LocalStorage

  const NoClassMessage: string := "Please select at least one class to detect."

  /**
   * The length test the select-all handler uses agrees with "every class is selected"
   * when neither list repeats a name and only listed classes are selected.
   */
  lemma {:induction false} LengthTestIsAllSelected(selected: seq<string>, classes: seq<string>)
    requires NoDups(selected) && NoDups(classes)
    requires forall c :: c in selected ==> c in classes
    ensures |selected| == |classes| <==> forall c :: c in classes ==> c in selected
  {
    CardOfNoDups(selected);
    CardOfNoDups(classes);
    var s, k := set c | c in selected, set c | c in classes;
    if forall c :: c in classes ==> c in selected {
      assert s == k;
    }
    if |selected| == |classes| {
      SubsetSameSize(s, k);
      forall c | c in classes ensures c in selected {
        assert c in k;
      }
    }
  }

  /** A subset as large as its superset is the whole superset. */
  lemma SubsetSameSize(s: set<string>, k: set<string>)
    requires s <= k && |s| == |k|
    ensures s == k
  {
    assert k == s + (k - s);
    assert s * (k - s) == {};
    assert |k - s| == 0;
  }

  /** A duplicate-free sequence has as many distinct elements as entries. */
  lemma {:induction false} CardOfNoDups(s: seq<string>)
    requires NoDups(s)
    ensures |set c | c in s| == |s|
  {
    if s != [] {
      var t := s[1..];
      assert NoDups(t) by {
        forall i, j | 0 <= i < j < |t| ensures t[i] != t[j] {
          assert t[i] == s[i + 1] && t[j] == s[j + 1];
        }
      }
      CardOfNoDups(t);
      assert s[0] !in t;
      assert (set c | c in s) == (set c | c in t) + {s[0]};
    }
  }

  class ClassPicker {
    var classes: seq<string>
    var selectedClasses: seq<string>
    var message: string

    /** Every selected class is listed, and neither list repeats a name. */
    ghost predicate Consistent()
      reads this
    {
      NoDups(classes) && NoDups(selectedClasses) && forall c :: c in selectedClasses ==> c in classes
    }

    /** Mounting the view: the recorded class names, or none, all of them selected. */
    constructor (storage: Store)
      ensures classes == storage.classNames.GetOr([])
      ensures selectedClasses == classes
      ensures message == ""
      ensures NoDups(classes) ==> Consistent()
    {
      var saved := storage.classNames.GetOr([]);
      classes, selectedClasses, message := saved, saved, "";
    }

    /**
     * A class's checkbox: the class's membership flips, an absent class is appended,
     * a present one is dropped with the rest kept in order.
     */
    method ToggleClass(className: string)
      modifies this
      ensures selectedClasses == Toggle(old(selectedClasses), className)
      ensures className in selectedClasses <==> className !in old(selectedClasses)
      ensures old(Consistent()) && className in classes ==> Consistent()
      ensures classes == old(classes) && message == old(message)
    {
      if NoDups(selectedClasses) {
        ToggleKeepsNoDups(selectedClasses, className);
      }
      selectedClasses := Toggle(selectedClasses, className);
    }

    /**
     * The select-all checkbox: when the selection is as long as the class list it is
     * emptied, otherwise it becomes the whole list; when the lists are consistent
     * that is "all selected" versus "not all selected".
     */
    method SelectAll()
      modifies this
      ensures selectedClasses == if |old(selectedClasses)| == |classes| then [] else classes
      ensures old(Consistent()) ==> Consistent()
      ensures old(Consistent()) ==>
        (selectedClasses == [] <==> forall c :: c in classes ==> c in old(selectedClasses))
      ensures classes == old(classes) && message == old(message)
    {
      if Consistent() {
        LengthTestIsAllSelected(selectedClasses, classes);
      }
      if |selectedClasses| == |classes| {
        selectedClasses := [];
      } else {
        selectedClasses := classes;
      }
    }

    /**
     * The Start Training button: with nothing selected it sets the warning and issues no
     * request; otherwise it issues a request for the selected classes.
     */
    method Train() returns (request: Option<seq<string>>)
      modifies this
      ensures selectedClasses == [] ==> request == None && message == NoClassMessage
      ensures selectedClasses != [] ==> request == Some(selectedClasses) && message == old(message)
      ensures classes == old(classes) && selectedClasses == old(selectedClasses)
    {
      if |selectedClasses| == 0 {
        message := NoClassMessage;
        return None;
      }
      return Some(selectedClasses);
    }
  }
}
