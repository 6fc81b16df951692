/** The surah pager of the player screen (src/Screens/Player.js): one page
    per surah, the current page located by id, next/previous steps that stop
    at either end, a play/pause flag, and the fixed-width page layout. The
    screen has no audio engine; play/pause only flips the flag. */
module Player {
  import opened Wrappers
  import opened Js

  /** `const { surahId = 1 } = route.params || {}`. */
  function InitialSurahId(params: Option<Record>): (surahId: Value)
    ensures params.None? || "surahId" !in params.value ==> surahId == Int(1)
    ensures params.Some? && "surahId" in params.value ==> surahId == params.value["surahId"]
  {
    Field(params.GetOr(map[]), "surahId").GetOr(Int(1))
  }

  /** `allSurahData.findIndex(s => s.id === surahId)`: the first position
      whose record has that id, or -1. */
  function FindIndexById(surahs: seq<Record>, surahId: Value): (r: int)
    ensures -1 <= r < |surahs|
    ensures r >= 0 ==> FieldIs(surahs[r], "id", Some(surahId))
    ensures r >= 0 ==> forall j :: 0 <= j < r ==> !FieldIs(surahs[j], "id", Some(surahId))
    ensures r == -1 <==> forall j :: 0 <= j < |surahs| ==> !FieldIs(surahs[j], "id", Some(surahId))
  {
    if surahs == [] then -1
    else if FieldIs(surahs[0], "id", Some(surahId)) then 0
    else
      var rest := FindIndexById(surahs[1..], surahId);
      if rest == -1 then -1 else rest + 1
  }

  datatype ItemLayout = ItemLayout(length: int, offset: int, index: int)

  /** `getItemLayout`: every page is one screen width wide. */
  function GetItemLayout(width: int, index: int): (r: ItemLayout)
    ensures r.length == width && r.index == index
    ensures r.offset == index * r.length
  {
    ItemLayout(width, width * index, index)
  }

  /** Pages tile the list with no gap or overlap, and the page at an offset
      is recovered by dividing by the width. */
  lemma LayoutTiles(width: int, index: nat)
    requires width > 0
    ensures GetItemLayout(width, index + 1).offset ==
      GetItemLayout(width, index).offset + GetItemLayout(width, index).length
    ensures GetItemLayout(width, index).offset / width == index
    ensures GetItemLayout(width, index).offset % width == 0
  {
    var o := width * index;
    assert o == index * width;
    assert (index * width) / width == index && (index * width) % width == 0 by {
      DivMulExact(width, index);
    }
  }

  /** Division undoes multiplication: `index * width` divided by `width` is
      `index`, with nothing left over. */
  lemma DivMulExact(width: int, index: int)
    requires width > 0
    ensures (index * width) / width == index && (index * width) % width == 0
  {
    var a := index * width;
    var q, r := a / width, a % width;
    assert a == q * width + r && 0 <= r < width;
    var d := index - q;
    assert d * width == r by {
      assert d * width == index * width - q * width;
    }
    ScaleAtLeast(d, width);
    ScaleAtLeast(-d, width);
  }

  /** A multiple of `width` by at least one is at least `width`. */
  lemma ScaleAtLeast(k: int, width: int)
    requires width > 0
    ensures k >= 1 ==> k * width >= width
  {
    if k >= 1 {
      assert k * width == (k - 1) * width + width;
      assert (k - 1) * width >= 0;
    }
  }

  /** The player screen's pager state. */
  class PlayerScreen {
    const surahId: Value
    var allSurahData: seq<Record>
    var currentIndex: int
    var isPlaying: bool

    /** The index is a page of the list (0 while the list is empty). */
    ghost predicate Valid()
      reads this
    {
      0 <= currentIndex && (currentIndex < |allSurahData| || currentIndex == 0)
    }

    /** `isBeginning`: exactly when there is no earlier page to go back to. */
    predicate IsBeginning()
      reads this
      ensures Valid() ==> (IsBeginning() <==> !(currentIndex > 0))
    {
      currentIndex == 0
    }

    /** `isEnd`: on a non-empty list, exactly when there is no later page;
        never while the list is empty. */
    predicate IsEnd()
      reads this
      ensures Valid() && |allSurahData| > 0 ==> (IsEnd() <==> !(currentIndex < |allSurahData| - 1))
      ensures Valid() && |allSurahData| == 0 ==> !IsEnd()
    {
      currentIndex == |allSurahData| - 1
    }

    /** Mounting: the surah list is still empty, index 0, not playing. */
    constructor (params: Option<Record>)
      ensures surahId == InitialSurahId(params)
      ensures allSurahData == [] && currentIndex == 0 && !isPlaying
      ensures Valid()
    {
      surahId := InitialSurahId(params);
      allSurahData := [];
      currentIndex := 0;
      isPlaying := false;
    }

    /** The surah list arrives and the initial-index effect runs: it moves to
        the first surah with the requested id, and stays put when none has it. */
    method SurahDataLoaded(data: seq<Record>)
      modifies this`allSurahData, this`currentIndex
      ensures allSurahData == data
      ensures |data| > 0 && FindIndexById(data, surahId) != -1 ==>
        currentIndex == FindIndexById(data, surahId)
      ensures |data| == 0 || FindIndexById(data, surahId) == -1 ==>
        currentIndex == old(currentIndex)
      ensures old(currentIndex) == 0 ==> Valid()
    {
      allSurahData := data;
      if |allSurahData| > 0 {
        var initialIndex := FindIndexById(allSurahData, surahId);
        if initialIndex != -1 {
          currentIndex := initialIndex;
        }
      }
    }

    /** `handleNext`: one page on, unless already on the last page. */
    method HandleNext()
      modifies this`currentIndex
      ensures currentIndex == if old(currentIndex) < |allSurahData| - 1 then old(currentIndex) + 1 else old(currentIndex)
      ensures old(Valid()) ==> Valid()
      ensures old(Valid()) && |allSurahData| > 0 ==> (currentIndex == old(currentIndex) <==> old(IsEnd()))
    {
      if currentIndex < |allSurahData| - 1 {
        var nextIndex := currentIndex + 1;
        currentIndex := nextIndex;
      }
    }

    /** `handlePrevious`: one page back, unless already on the first page. */
    method HandlePrevious()
      modifies this`currentIndex
      ensures currentIndex == if old(currentIndex) > 0 then old(currentIndex) - 1 else old(currentIndex)
      ensures old(Valid()) ==> Valid()
      ensures old(Valid()) ==> (currentIndex == old(currentIndex) <==> old(IsBeginning()))
    {
      if currentIndex > 0 {
        var prevIndex := currentIndex - 1;
        currentIndex := prevIndex;
      }
    }

    /** `onPlayPause`: `setIsPlaying(!isPlaying)`. */
    method TogglePlayPause()
      modifies this`isPlaying
      ensures isPlaying == !old(isPlaying)
    {
      isPlaying := !isPlaying;
    }
  }
}
