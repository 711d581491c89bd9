/**
 * The mesh influence update of the avatar head: for every entry of the head's
 * morph-target dictionary, in entry order, the table gives the landmarker name
 * for the entry's morph-target name; the first blendshape of the current list
 * with that name has its score written into the influence array at the
 * entry's index. Nothing else is written, and nothing is reset.
 */
module Influences {
  import opened Wrappers
  import NameMap
  import opened Frames

  /** One entry of the morph-target dictionary: a morph-target name and its index in the influence array. */
  type Entry = (string, nat)

  /** Every index the dictionary names lies inside an influence array of length `n`. */
  predicate IndicesWithin(dictionary: seq<Entry>, n: nat)
  {
    forall k | 0 <= k < |dictionary| :: dictionary[k].1 < n
  }

  /** The test `name === target` of the search, where `target` may be `undefined`. */
  predicate Matches<V>(b: Blendshape<V>, target: Option<string>)
  {
    target == Some(b.name)
  }

  /** `blendshapes.find(...)`: the position of the first blendshape the test accepts, if any. */
  function FindFirst<V>(blendshapes: seq<Blendshape<V>>, target: Option<string>): (r: Option<nat>)
    ensures r.Some? ==> r.value < |blendshapes| && Matches(blendshapes[r.value], target)
    ensures r.Some? ==> forall i | 0 <= i < r.value :: !Matches(blendshapes[i], target)
    ensures r.None? ==> forall i | 0 <= i < |blendshapes| :: !Matches(blendshapes[i], target)
  {
    if blendshapes == [] then None
    else if Matches(blendshapes[0], target) then Some(0)
    else match FindFirst(blendshapes[1..], target)
      case None => None
      case Some(i) => Some(i + 1)
  }

  /**
   * `blendshapes.find(({ name }) => name === map[key])`, as a position: the
   * first blendshape named what the table gives for `key`, if any.
   */
  function Driver<V>(blendshapes: seq<Blendshape<V>>, key: string): (r: Option<nat>)
    ensures r.Some? ==> r.value < |blendshapes| && NameMap.Lookup(key) == Some(blendshapes[r.value].name)
    ensures r.Some? ==> forall i | 0 <= i < r.value :: NameMap.Lookup(key) != Some(blendshapes[i].name)
    ensures r.None? ==> forall i | 0 <= i < |blendshapes| :: NameMap.Lookup(key) != Some(blendshapes[i].name)
  {
    FindFirst(blendshapes, NameMap.Lookup(key))
  }

  /**
   * The influences after the loop body has run for one dictionary entry: the
   * entry's index takes the driving blendshape's score when there is one;
   * every other index, and the entry's own index when there is none, keeps
   * its value.
   */
  function Step<V>(influences: seq<V>, entry: Entry, blendshapes: seq<Blendshape<V>>): (r: seq<V>)
    requires entry.1 < |influences|
    ensures |r| == |influences|
    ensures forall j | 0 <= j < |r| && j != entry.1 :: r[j] == influences[j]
    ensures Driver(blendshapes, entry.0).Some? ==>
              r[entry.1] == blendshapes[Driver(blendshapes, entry.0).value].value
    ensures Driver(blendshapes, entry.0).None? ==> r == influences
  {
    match Driver(blendshapes, entry.0)
    case None => influences
    case Some(i) => influences[entry.1 := blendshapes[i].value]
  }

  /** The influences after the loop has run over all of `dictionary`. */
  function Applied<V>(influences: seq<V>, dictionary: seq<Entry>, blendshapes: seq<Blendshape<V>>): (r: seq<V>)
    requires IndicesWithin(dictionary, |influences|)
    ensures |r| == |influences|
    decreases |dictionary|
  {
    if dictionary == [] then influences
    else
      var last := |dictionary| - 1;
      Step(Applied(influences, dictionary[..last], blendshapes), dictionary[last], blendshapes)
  }

  /** The loop body for `entry` writes at index `j`: the entry names `j` and its key is driven. */
  predicate WritesAt<V>(entry: Entry, blendshapes: seq<Blendshape<V>>, j: nat)
  {
    entry.1 == j && Driver(blendshapes, entry.0).Some?
  }

  /**
   * The position in `dictionary` of the last entry that writes at index `j`:
   * the write the array keeps at `j`.
   */
  function LastWriter<V>(dictionary: seq<Entry>, blendshapes: seq<Blendshape<V>>, j: nat): (r: Option<nat>)
    ensures r.Some? ==> r.value < |dictionary| && WritesAt(dictionary[r.value], blendshapes, j)
    ensures r.Some? ==> forall k | r.value < k < |dictionary| :: !WritesAt(dictionary[k], blendshapes, j)
    ensures r.None? ==> forall k | 0 <= k < |dictionary| :: !WritesAt(dictionary[k], blendshapes, j)
    decreases |dictionary|
  {
    if dictionary == [] then None
    else
      var last := |dictionary| - 1;
      if WritesAt(dictionary[last], blendshapes, j) then Some(last)
      else LastWriter(dictionary[..last], blendshapes, j)
  }

  /**
   * An entry whose key is driven by a blendshape, and which no later driven
   * entry at the same index overrides, leaves the first matching blendshape's
   * score at its index.
   */
  lemma {:induction false} AppliedWrites<V>(influences: seq<V>, dictionary: seq<Entry>, blendshapes: seq<Blendshape<V>>, k: nat)
    requires IndicesWithin(dictionary, |influences|)
    requires k < |dictionary| && WritesAt(dictionary[k], blendshapes, dictionary[k].1)
    requires forall k' | k < k' < |dictionary| :: !WritesAt(dictionary[k'], blendshapes, dictionary[k].1)
    ensures Applied(influences, dictionary, blendshapes)[dictionary[k].1]
            == blendshapes[Driver(blendshapes, dictionary[k].0).value].value
  {
    var last := |dictionary| - 1;
    if k < last {
      AppliedWrites(influences, dictionary[..last], blendshapes, k);
    }
  }

  /** An index at which no dictionary entry is driven by a blendshape keeps its value: there is no reset. */
  lemma {:induction false} AppliedKeeps<V>(influences: seq<V>, dictionary: seq<Entry>, blendshapes: seq<Blendshape<V>>, j: nat)
    requires IndicesWithin(dictionary, |influences|) && j < |influences|
    requires forall k | 0 <= k < |dictionary| :: !WritesAt(dictionary[k], blendshapes, j)
    ensures Applied(influences, dictionary, blendshapes)[j] == influences[j]
  {
    if dictionary != [] {
      AppliedKeeps(influences, dictionary[..|dictionary| - 1], blendshapes, j);
    }
  }

  /** Every element after the update: the score of the index's last driven entry, or the old value. */
  lemma {:induction false} AppliedAt<V>(influences: seq<V>, dictionary: seq<Entry>, blendshapes: seq<Blendshape<V>>, j: nat)
    requires IndicesWithin(dictionary, |influences|) && j < |influences|
    ensures Applied(influences, dictionary, blendshapes)[j]
            == match LastWriter(dictionary, blendshapes, j)
               case Some(k) => blendshapes[Driver(blendshapes, dictionary[k].0).value].value
               case None => influences[j]
  {
    match LastWriter(dictionary, blendshapes, j)
    case Some(k) => AppliedWrites(influences, dictionary, blendshapes, k);
    case None => AppliedKeeps(influences, dictionary, blendshapes, j);
  }

  /** Running the update a second time with the same inputs changes nothing. */
  lemma AppliedIdempotent<V>(influences: seq<V>, dictionary: seq<Entry>, blendshapes: seq<Blendshape<V>>)
    requires IndicesWithin(dictionary, |influences|)
    ensures Applied(Applied(influences, dictionary, blendshapes), dictionary, blendshapes)
            == Applied(influences, dictionary, blendshapes)
  {
    var once := Applied(influences, dictionary, blendshapes);
    var twice := Applied(once, dictionary, blendshapes);
    forall j | 0 <= j < |influences|
      ensures twice[j] == once[j]
    {
      AppliedAt(influences, dictionary, blendshapes, j);
      AppliedAt(once, dictionary, blendshapes, j);
    }
  }

  /** An empty blendshape list leaves the whole influence array as it was. */
  lemma {:induction false} EmptyListKeepsAll<V>(influences: seq<V>, dictionary: seq<Entry>)
    requires IndicesWithin(dictionary, |influences|)
    ensures Applied(influences, dictionary, []) == influences
  {
    if dictionary != [] {
      EmptyListKeepsAll(influences, dictionary[..|dictionary| - 1]);
    }
  }

  /**
   * The dictionary entries whose key is one of the table's own keys: no entry
   * is added or repeated.
   */
  function MappedEntries(dictionary: seq<Entry>): (r: seq<Entry>)
    ensures |r| <= |dictionary| && multiset(r) <= multiset(dictionary)
    ensures forall e | e in r :: e in dictionary && NameMap.Lookup(e.0).Some?
    ensures forall e | e in dictionary && NameMap.Lookup(e.0).Some? :: e in r
    decreases |dictionary|
  {
    if dictionary == [] then []
    else
      var last := |dictionary| - 1;
      var front := MappedEntries(dictionary[..last]);
      assert dictionary == dictionary[..last] + [dictionary[last]];
      if NameMap.Lookup(dictionary[last].0).Some? then front + [dictionary[last]] else front
  }

  /**
   * A key missing from the table looks up `undefined`, which no blendshape
   * name equals: dropping every such entry from the dictionary does not
   * change the update.
   */
  lemma {:induction false} UnmappedKeysIgnored<V>(influences: seq<V>, dictionary: seq<Entry>, blendshapes: seq<Blendshape<V>>)
    requires IndicesWithin(dictionary, |influences|)
    ensures IndicesWithin(MappedEntries(dictionary), |influences|)
    ensures Applied(influences, dictionary, blendshapes) == Applied(influences, MappedEntries(dictionary), blendshapes)
  {
    var mapped := MappedEntries(dictionary);
    forall k | 0 <= k < |mapped| ensures mapped[k].1 < |influences| {
      assert mapped[k] in dictionary;
    }
    if dictionary != [] {
      var last := |dictionary| - 1;
      var front := dictionary[..last];
      UnmappedKeysIgnored(influences, front, blendshapes);
      var frontMapped := MappedEntries(front);
      if NameMap.Lookup(dictionary[last].0).Some? {
        assert mapped[..|mapped| - 1] == frontMapped;
      } else {
        assert Driver(blendshapes, dictionary[last].0).None?;
      }
    }
  }

  /**
   * `tongueOut` looks up the empty string: its entry writes only when a
   * blendshape literally named "" is in the list, and then the first one's score.
   */
  lemma TongueOutNeedsEmptyName<V>(influences: seq<V>, idx: nat, blendshapes: seq<Blendshape<V>>)
    requires idx < |influences|
    ensures (forall i | 0 <= i < |blendshapes| :: blendshapes[i].name != "") ==>
              Step(influences, ("tongueOut", idx), blendshapes) == influences
    ensures forall i | 0 <= i < |blendshapes| && blendshapes[i].name == "" &&
                       (forall i' | 0 <= i' < i :: blendshapes[i'].name != "") ::
              Step(influences, ("tongueOut", idx), blendshapes) == influences[idx := blendshapes[i].value]
  {
  }

  /**
   * The table's direction: the dictionary key `browDown_L` takes the score of
   * the first blendshape named `browDownLeft`, wherever it stands in the list,
   * and keeps its value when there is none; the landmarker name
   * `browDownLeft` is itself no key of the table.
   */
  lemma BrowDownLeftDrivesBrowDownL<V>(influences: seq<V>, idx: nat, blendshapes: seq<Blendshape<V>>)
    requires idx < |influences|
    ensures Applied(influences, [("browDown_L", idx)], blendshapes)
            == match FindFirst(blendshapes, Some("browDownLeft"))
               case None => influences
               case Some(i) => influences[idx := blendshapes[i].value]
    ensures NameMap.Lookup("browDownLeft") == None
  {
    assert NameMap.Lookup("browDown_L") == Some("browDownLeft");
    assert [("browDown_L", idx)][..0] == [];
  }

  /**
   * The loop of the `Facecap` component: walks the dictionary in entry order
   * and writes, for every entry whose key is driven by a blendshape, that
   * blendshape's score at the entry's index.
   */
  method UpdateInfluences<V>(influences: array<V>, dictionary: seq<Entry>, blendshapes: seq<Blendshape<V>>)
    requires IndicesWithin(dictionary, influences.Length)
    modifies influences
    ensures influences[..] == Applied(old(influences[..]), dictionary, blendshapes)
  {
    for n := 0 to |dictionary|
      invariant IndicesWithin(dictionary[..n], influences.Length)
      invariant influences[..] == Applied(old(influences[..]), dictionary[..n], blendshapes)
    {
      var (key, index) := dictionary[n];
      var found := FindFirst(blendshapes, NameMap.Lookup(key));
      if found.Some? {
        influences[index] := blendshapes[found.value].value;
      }
      assert dictionary[..n + 1][..n] == dictionary[..n];
    }
    assert dictionary[..|dictionary|] == dictionary;
  }
}
