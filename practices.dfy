/** The daily-practices screen (src/Screens/Practices.js): a fixed list of
    ten practices shown as an accordion in which pressing a practice opens it
    and closes whichever was open, and a search box whose text is kept but
    filters nothing. */
module Practices {
  import opened Wrappers
  import Selection

  /** A practice: its id and English title (the Urdu title, description and
      du'as are display text only). */
  datatype Practice = Practice(id: int, title: string)

  const PracticeList: seq<Practice> := [
    Practice(1, "Upon Waking Up"),
    Practice(2, "Entering the Bathroom"),
    Practice(3, "Leaving the Bathroom"),
    Practice(4, "Before Wudu (Ablution)"),
    Practice(5, "After Wudu (Ablution)"),
    Practice(6, "Morning Remembrance"),
    Practice(7, "Before Eating"),
    Practice(8, "After Eating"),
    Practice(9, "Evening Remembrance"),
    Practice(10, "Before Sleeping")]

  predicate UniqueIds(list: seq<Practice>)
  {
    forall i, j :: 0 <= i < |list| && 0 <= j < |list| && list[i].id == list[j].id ==> i == j
  }

  /** The ids are 1 to 10 in order, so no two practices share one. */
  lemma PracticeIds()
    ensures |PracticeList| == 10
    ensures forall i :: 0 <= i < |PracticeList| ==> PracticeList[i].id == i + 1
    ensures UniqueIds(PracticeList)
  {
  }

  /** `Number.prototype.toString()` of a non-negative integer: its decimal digits. */
  function DecimalString(n: nat): (s: string)
    ensures |s| >= 1
    ensures forall i :: 0 <= i < |s| ==> '0' <= s[i] <= '9'
    ensures s[|s| - 1] as int - '0' as int == n % 10
    decreases n
  {
    if n < 10 then [('0' as int + n) as char]
    else DecimalString(n / 10) + [('0' as int + n % 10) as char]
  }

  /** Different ids never share a decimal string, so ids make distinct list keys. */
  lemma {:induction false} DecimalStringInjective(a: nat, b: nat)
    ensures DecimalString(a) == DecimalString(b) ==> a == b
    decreases a
  {
    var sa, sb := DecimalString(a), DecimalString(b);
    if sa == sb {
      if a < 10 && b < 10 {
        assert sa[0] == sb[0];
      } else if a >= 10 && b >= 10 {
        assert sa[..|sa| - 1] == DecimalString(a / 10);
        assert sb[..|sb| - 1] == DecimalString(b / 10);
        DecimalStringInjective(a / 10, b / 10);
        assert sa[|sa| - 1] == sb[|sb| - 1];
      }
    }
  }

  /** `keyExtractor={item => item.id.toString()}`. */
  function KeyOf(p: Practice): string
    requires p.id >= 0
  {
    DecimalString(p.id)
  }

  /** Every key of the list is different. */
  lemma KeysUnique()
    ensures forall i, j :: (0 <= i < |PracticeList| && 0 <= j < |PracticeList| &&
      KeyOf(PracticeList[i]) == KeyOf(PracticeList[j])) ==> i == j
  {
    PracticeIds();
    forall i, j | (0 <= i < |PracticeList| && 0 <= j < |PracticeList| &&
      KeyOf(PracticeList[i]) == KeyOf(PracticeList[j]))
      ensures i == j
    {
      DecimalStringInjective(PracticeList[i].id, PracticeList[j].id);
    }
  }

  /** `isExpanded={expandedId === item.id}`. */
  predicate IsExpanded(expandedId: Option<int>, p: Practice)
  {
    expandedId == Some(p.id)
  }

  /** Whatever the state, at most one practice of the list is shown open. */
  lemma AtMostOneExpanded(expandedId: Option<int>, i: nat, j: nat)
    requires i < |PracticeList| && j < |PracticeList|
    requires IsExpanded(expandedId, PracticeList[i]) && IsExpanded(expandedId, PracticeList[j])
    ensures i == j
  {
    PracticeIds();
  }

  /** The screen's state. */
  class PracticesScreen {
    var searchQuery: string
    var expandedId: Option<int>

    /** Mounting: nothing open, empty search. */
    constructor ()
      ensures searchQuery == "" && expandedId == None
    {
      searchQuery := "";
      expandedId := None;
    }

    /** The list the screen renders: always every practice, whatever was typed. */
    function VisibleList(): seq<Practice>
      reads this
    {
      PracticeList
    }

    /** `handlePress`: the open practice closes, any other opens instead. */
    method HandlePress(id: int)
      modifies this`expandedId
      ensures expandedId == Selection.Toggled(old(expandedId), id)
      ensures old(expandedId) == Some(id) ==> expandedId == None
      ensures old(expandedId) != Some(id) ==> expandedId == Some(id)
    {
      expandedId := Selection.Toggled(expandedId, id);
    }

    /** `onChangeText={setSearchQuery}`: the text is kept, and the list stays
        the full list, in the same order. */
    method SetSearchQuery(q: string)
      modifies this`searchQuery
      ensures searchQuery == q
      ensures VisibleList() == old(VisibleList()) == PracticeList
    {
      searchQuery := q;
    }
  }

  /** Two presses on one practice from the closed state close it again; after
      one press, pressing another practice opens that one alone. */
  lemma PressTwice(id: int, other: int)
    ensures Selection.Toggled(Selection.Toggled(None, id), id) == None
    ensures other != id ==> Selection.Toggled(Selection.Toggled(None, id), other) == Some(other)
  {
    Selection.ToggleTwiceFromClosed(id, other);
  }
}
