/** The bookmarks screen (src/Screens/Bookmarks.js): the list loaded from the
    `bookmarks` store key, a two-step remove (press, then confirm or cancel)
    that writes the store before touching the list, and the list shown with
    surah names added. Bookmarks and surahs are JSON records. */
module Bookmarks {
  import opened Wrappers
  import opened Js
  import Player

  const BookmarksKey: string := "bookmarks"
  const SurahNameKey: string := "surahName"
  const ArabicNameKey: string := "arabicName"
  const UnknownName: string := "Unknown"
  const UnknownArabicName: string := "غير معروف"

  /** What the `bookmarks` key holds once parsed. */
  datatype StoredBookmarks = BookmarkList(items: seq<Record>) | Unparsable

  type Storage = map<string, StoredBookmarks>

  /** The list `loadBookmarks` leaves: nothing stored is an empty list; a
      failed read or a value that does not parse keeps the current list. */
  function LoadedBookmarks(storage: Storage, readFails: bool, current: seq<Record>): (r: seq<Record>)
    ensures !readFails && BookmarksKey !in storage ==> r == []
    ensures !readFails && BookmarksKey in storage && storage[BookmarksKey].BookmarkList? ==>
      r == storage[BookmarksKey].items
    ensures readFails || (BookmarksKey in storage && storage[BookmarksKey] == Unparsable) ==> r == current
  {
    if readFails then current
    else if BookmarksKey !in storage then []
    else match storage[BookmarksKey]
      case BookmarkList(items) => items
      case Unparsable => current
  }

  /** `bookmarks.filter(item => item.id !== id)`. */
  function RemoveById(items: seq<Record>, id: Value): (r: seq<Record>)
    ensures |r| <= |items|
    ensures forall b :: b in r <==> b in items && !FieldIs(b, "id", Some(id))
  {
    if items == [] then []
    else if FieldIs(items[0], "id", Some(id)) then RemoveById(items[1..], id)
    else [items[0]] + RemoveById(items[1..], id)
  }

  /** The filter drops a single item exactly when it has the id. */
  lemma RemoveSingle(x: Record, id: Value)
    ensures RemoveById([x], id) == if FieldIs(x, "id", Some(id)) then [] else [x]
  {
    assert [x][1..] == [];
  }

  /** The filter works item by item and keeps the order: it splits over
      concatenation. */
  lemma {:induction false} RemoveKeepsOrder(a: seq<Record>, b: seq<Record>, id: Value)
    ensures RemoveById(a + b, id) == RemoveById(a, id) + RemoveById(b, id)
    decreases |a|
  {
    if a == [] {
      assert a + b == b;
    } else {
      assert (a + b)[0] == a[0];
      assert (a + b)[1..] == a[1..] + b;
      RemoveKeepsOrder(a[1..], b, id);
    }
  }

  /** Removing twice is removing once, and a list without the id is unchanged. */
  lemma {:induction false} RemoveIdempotent(items: seq<Record>, id: Value)
    ensures RemoveById(RemoveById(items, id), id) == RemoveById(items, id)
    ensures (forall b :: b in items ==> !FieldIs(b, "id", Some(id))) ==> RemoveById(items, id) == items
  {
    if items != [] {
      RemoveIdempotent(items[1..], id);
      if !FieldIs(items[0], "id", Some(id)) {
        assert ([items[0]] + RemoveById(items[1..], id))[1..] == RemoveById(items[1..], id);
      }
    }
  }

  /** `allSurahData.find(s => s.id === surahId)`: the first surah with that id. */
  function FindSurah(surahs: seq<Record>, surahId: Option<Value>): (r: Option<Record>)
    ensures r.None? <==> forall i :: 0 <= i < |surahs| ==> !FieldIs(surahs[i], "id", surahId)
    ensures r.Some? ==> exists i :: (0 <= i < |surahs| && surahs[i] == r.value &&
      FieldIs(surahs[i], "id", surahId) && forall j :: 0 <= j < i ==> !FieldIs(surahs[j], "id", surahId))
  {
    if surahs == [] then None
    else if FieldIs(surahs[0], "id", surahId) then Some(surahs[0])
    else
      FindSurah(surahs[1..], surahId)
  }

  /** `find(...)?.key || fallback`. */
  function NameFrom(found: Option<Record>, key: string, fallback: string): Value
  {
    OrElse(if found.Some? then Field(found.value, key) else None, fallback)
  }

  /** One bookmark with `surahName` and `arabicName` added. */
  function Enrich(bookmark: Record, surahs: seq<Record>): (r: Record)
    ensures r.Keys == bookmark.Keys + {SurahNameKey, ArabicNameKey}
    ensures forall k :: k in bookmark && k != SurahNameKey && k != ArabicNameKey ==> r[k] == bookmark[k]
    ensures FindSurah(surahs, Field(bookmark, "surahId")).None? ==>
      r[SurahNameKey] == Text(UnknownName) && r[ArabicNameKey] == Text(UnknownArabicName)
  {
    var found := FindSurah(surahs, Field(bookmark, "surahId"));
    bookmark[SurahNameKey := NameFrom(found, "transliteration", UnknownName)]
            [ArabicNameKey := NameFrom(found, "name", UnknownArabicName)]
  }

  /** `processedBookmarks`: with no surah data the bookmarks as they are;
      otherwise each bookmark, in order, with every field kept (other than
      the two names, which are set) and the two names added. */
  function Processed(bookmarks: seq<Record>, surahs: seq<Record>): (r: seq<Record>)
    ensures |surahs| == 0 ==> r == bookmarks
    ensures |r| == |bookmarks|
    ensures |surahs| > 0 ==> forall i :: 0 <= i < |r| ==>
      && r[i].Keys == bookmarks[i].Keys + {SurahNameKey, ArabicNameKey}
      && (forall k :: k in bookmarks[i] && k != SurahNameKey && k != ArabicNameKey ==> r[i][k] == bookmarks[i][k])
      && r[i][SurahNameKey] == NameFrom(FindSurah(surahs, Field(bookmarks[i], "surahId")), "transliteration", UnknownName)
      && r[i][ArabicNameKey] == NameFrom(FindSurah(surahs, Field(bookmarks[i], "surahId")), "name", UnknownArabicName)
  {
    if |surahs| == 0 then bookmarks
    else seq(|bookmarks|, i requires 0 <= i < |bookmarks| => Enrich(bookmarks[i], surahs))
  }

  /** A bookmark whose surah is not in the data gets the fixed fallback
      names; one whose surah has a non-empty name gets that name. */
  lemma NameFallbacks(bookmark: Record, surahs: seq<Record>)
    requires |surahs| > 0
    ensures (forall i :: 0 <= i < |surahs| ==> !FieldIs(surahs[i], "id", Field(bookmark, "surahId"))) ==>
      Processed([bookmark], surahs)[0][SurahNameKey] == Text(UnknownName) &&
      Processed([bookmark], surahs)[0][ArabicNameKey] == Text(UnknownArabicName)
    ensures forall i :: (0 <= i < |surahs| && FieldIs(surahs[i], "id", Field(bookmark, "surahId")) &&
      (forall j :: 0 <= j < i ==> !FieldIs(surahs[j], "id", Field(bookmark, "surahId"))) &&
      Truthy(Field(surahs[i], "transliteration"))) ==>
        Processed([bookmark], surahs)[0][SurahNameKey] == surahs[i]["transliteration"]
  {
    var found := FindSurah(surahs, Field(bookmark, "surahId"));
    forall i | 0 <= i < |surahs| && FieldIs(surahs[i], "id", Field(bookmark, "surahId")) &&
      (forall j :: 0 <= j < i ==> !FieldIs(surahs[j], "id", Field(bookmark, "surahId")))
      ensures found == Some(surahs[i])
    {
      var k :| 0 <= k < |surahs| && surahs[k] == found.value &&
        FieldIs(surahs[k], "id", Field(bookmark, "surahId")) &&
        forall j :: 0 <= j < k ==> !FieldIs(surahs[j], "id", Field(bookmark, "surahId"));
    }
  }

  /** `handleNavigation`: the player is opened with the bookmark's surah and
      verse. A property whose value is `undefined` is an absent key here. */
  function NavigationParams(item: Record): (params: Record)
    ensures params.Keys == item.Keys * {"surahId", "verseId"}
    ensures forall k :: k in params ==> params[k] == item[k]
  {
    map k | k in item.Keys * {"surahId", "verseId"} :: item[k]
  }

  /** A bookmark opens the player on its own surah, and on the first surah
      when it has none. */
  lemma OpensOwnSurah(item: Record)
    ensures Player.InitialSurahId(Some(NavigationParams(item))) == Field(item, "surahId").GetOr(Int(1))
  {
  }

  /** The bookmarks screen's state. `None` in `itemToConfirmDelete` is `null`. */
  class BookmarksScreen {
    var bookmarks: seq<Record>
    var itemToConfirmDelete: Option<Value>
    var allSurahData: seq<Record>
    var storage: Storage

    constructor (deviceStorage: Storage)
      ensures bookmarks == [] && itemToConfirmDelete == None && allSurahData == []
      ensures storage == deviceStorage
    {
      bookmarks := [];
      itemToConfirmDelete := None;
      allSurahData := [];
      storage := deviceStorage;
    }

    /** The list the screen shows: one entry per stored bookmark, in order. */
    function ProcessedBookmarks(): (r: seq<Record>)
      reads this
      ensures |r| == |bookmarks|
      ensures allSurahData == [] ==> r == bookmarks
    {
      Processed(bookmarks, allSurahData)
    }

    /** `isConfirming={itemToConfirmDelete === item.id}`. */
    predicate IsConfirming(item: Record)
      reads this
    {
      itemToConfirmDelete.Some? && StrictEq(itemToConfirmDelete, Field(item, "id"))
    }

    /** `loadBookmarks`. */
    method LoadBookmarks(readFails: bool)
      modifies this`bookmarks
      ensures bookmarks == LoadedBookmarks(storage, readFails, old(bookmarks))
    {
      if !readFails {
        if BookmarksKey !in storage {
          bookmarks := [];
        } else if storage[BookmarksKey].BookmarkList? {
          bookmarks := storage[BookmarksKey].items;
        }
      }
    }

    /** The surah list arrives from `useSurahData`. */
    method SurahDataLoaded(data: seq<Record>)
      modifies this`allSurahData
      ensures allSurahData == data
      ensures ProcessedBookmarks() == Processed(bookmarks, data)
    {
      allSurahData := data;
    }

    /** `onRemovePress`: that bookmark awaits confirmation. */
    method HandleRemovePress(id: Value)
      modifies this`itemToConfirmDelete
      ensures itemToConfirmDelete == Some(id)
      ensures forall item :: IsConfirming(item) <==> FieldIs(item, "id", Some(id))
    {
      itemToConfirmDelete := Some(id);
    }

    /** `onCancelDelete`: nothing awaits confirmation. */
    method HandleCancelDelete()
      modifies this`itemToConfirmDelete
      ensures itemToConfirmDelete == None
      ensures forall item :: !IsConfirming(item)
    {
      itemToConfirmDelete := None;
    }

    /** `handleRemove`: the filtered list is written first; only when the write
        succeeds do the list and the confirmation target change. */
    method HandleRemove(id: Value, writeFails: bool)
      modifies this`bookmarks, this`itemToConfirmDelete, this`storage
      ensures writeFails ==> (bookmarks == old(bookmarks) && itemToConfirmDelete == old(itemToConfirmDelete) &&
        storage == old(storage))
      ensures !writeFails ==> (bookmarks == RemoveById(old(bookmarks), id) && itemToConfirmDelete == None &&
        storage == old(storage)[BookmarksKey := BookmarkList(bookmarks)])
    {
      var updatedBookmarks := RemoveById(bookmarks, id);
      if writeFails {
        return;
      }
      storage := storage[BookmarksKey := BookmarkList(updatedBookmarks)];
      bookmarks := updatedBookmarks;
      itemToConfirmDelete := None;
    }
  }

  /** What a successful remove writes is what the next load reads back. */
  lemma RemovedListReloads(storage: Storage, items: seq<Record>, id: Value, current: seq<Record>)
    ensures LoadedBookmarks(storage[BookmarksKey := BookmarkList(RemoveById(items, id))], false, current) ==
      RemoveById(items, id)
  {
  }
}
