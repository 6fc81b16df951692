/** The `useSurahData` hook (src/Hooks/useSurahData.js): the surah list,
    optionally projected onto a list of keys. Surah records are JSON objects. */
module SurahData {
  import opened Wrappers
  import opened Js

  /** The `reduce` that builds one projected record: starting from `acc`,
      each key in turn is copied from `surah` when `surah` has it as an own
      property. */
  function ProjectOnto(surah: Record, keys: seq<string>, acc: Record): (r: Record)
    ensures acc.Keys <= r.Keys <= acc.Keys + surah.Keys
    decreases |keys|
  {
    if keys == [] then acc
    else ProjectOnto(surah, keys[1..], if keys[0] in surah then acc[keys[0] := surah[keys[0]]] else acc)
  }

  /** `keysToInclude.reduce(..., {})`. */
  function Project(surah: Record, keys: seq<string>): (r: Record)
    ensures r.Keys <= surah.Keys
    ensures keys == [] ==> r == map[]
  {
    ProjectOnto(surah, keys, map[])
  }

  lemma {:induction false} ProjectOntoContents(surah: Record, keys: seq<string>, acc: Record)
    ensures forall k :: k in ProjectOnto(surah, keys, acc) <==> k in acc || (k in keys && k in surah)
    ensures forall k :: k in ProjectOnto(surah, keys, acc) ==>
      ProjectOnto(surah, keys, acc)[k] == if k in keys && k in surah then surah[k] else acc[k]
    decreases |keys|
  {
    if keys != [] {
      var acc' := if keys[0] in surah then acc[keys[0] := surah[keys[0]]] else acc;
      ProjectOntoContents(surah, keys[1..], acc');
      assert forall k :: k in keys <==> k == keys[0] || k in keys[1..];
    }
  }

  /** A projected record has key `k` exactly when `k` is requested and the
      input record has it, and then with the input's value. */
  lemma ProjectedRecord(surah: Record, keys: seq<string>)
    ensures forall k :: k in Project(surah, keys) <==> k in keys && k in surah
    ensures forall k :: k in Project(surah, keys) ==> Project(surah, keys)[k] == surah[k]
  {
    ProjectOntoContents(surah, keys, map[]);
  }

  /** Only the set of requested keys matters: their order and repetitions
      do not change the projection. */
  lemma DuplicateKeysIrrelevant(surah: Record, keys1: seq<string>, keys2: seq<string>)
    requires forall k :: k in keys1 <==> k in keys2
    ensures Project(surah, keys1) == Project(surah, keys2)
  {
    ProjectedRecord(surah, keys1);
    ProjectedRecord(surah, keys2);
    assert Project(surah, keys1).Keys == Project(surah, keys2).Keys;
  }

  /** The effect's result: with a non-empty key list every record is
      projected, in order; a missing or empty key list keeps the data as it is. */
  function UseSurahData(quranData: seq<Record>, keysToInclude: Option<seq<string>>): (r: seq<Record>)
    ensures keysToInclude == None || keysToInclude == Some([]) ==> r == quranData
    ensures |r| == |quranData|
    ensures keysToInclude.Some? && keysToInclude.value != [] ==>
      forall i, k :: 0 <= i < |r| ==>
        (k in r[i] <==> k in keysToInclude.value && k in quranData[i]) &&
        (k in r[i] ==> r[i][k] == quranData[i][k])
  {
    if keysToInclude.None? || keysToInclude.value == [] then quranData
    else
      var r := seq(|quranData|, i requires 0 <= i < |quranData| => Project(quranData[i], keysToInclude.value));
      assert forall i :: 0 <= i < |r| ==> r[i] == Project(quranData[i], keysToInclude.value);
      forall i | 0 <= i < |r| { ProjectedRecord(quranData[i], keysToInclude.value); }
      r
  }

  /** The hook's state: empty until the effect has run. */
  class SurahListHook {
    var surahList: seq<Record>

    constructor ()
      ensures surahList == []
    {
      surahList := [];
    }

    method RunEffect(quranData: seq<Record>, keysToInclude: Option<seq<string>>)
      modifies this
      ensures surahList == UseSurahData(quranData, keysToInclude)
    {
      surahList := UseSurahData(quranData, keysToInclude);
    }
  }
}
