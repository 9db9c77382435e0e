/**
 * The place resolver (components/PlaceRepository.js): two case-insensitive
 * indices built once from the ordered place list, an exact index over every
 * name and alias and a prefix index over the keys of the places flagged
 * `isPrefix`, and a lookup that tries the exact index first and then scans
 * the prefix index in insertion order.
 */
module Places {
  import opened Wrappers
  import opened Text
  import opened AssocList

  /**
   * A place of the dataset. `aliases` is `[]` when the dataset omits it
   * (`place.aliases ?? []`). `asPrefix` is the property that the alarm form
   * reads when it chooses the alarm object; the dataset itself flags prefix
   * places with `isPrefix`.
   */
  datatype Place = Place(
    name: string,
    aliases: seq<string>,
    isPrefix: bool,
    asPrefix: bool,
    lat: Option<real>,
    lng: Option<real>,
    description: Option<string>)

  /** An index: lower-cased key to place, in insertion order. */
  type Index = seq<(string, Place)>

  function LowerAll(ss: seq<string>): (r: seq<string>)
    ensures |r| == |ss|
    ensures forall i :: 0 <= i < |ss| ==> r[i] == Lower(ss[i])
  {
    seq(|ss|, i requires 0 <= i < |ss| => Lower(ss[i]))
  }

  /** The keys a place is indexed under, in the order they are set: its name, then its aliases. */
  function PlaceKeys(p: Place): seq<string> {
    [Lower(p.name)] + LowerAll(p.aliases)
  }

  function PlaceEntries(p: Place): (r: Index)
    ensures Keys(r) == PlaceKeys(p)
    ensures forall i :: 0 <= i < |r| ==> r[i].1 == p
  {
    var ks := PlaceKeys(p);
    seq(|ks|, i requires 0 <= i < |ks| => (ks[i], p))
  }

  /** Every `set` the load performs on the exact index, in order. */
  function Entries(places: seq<Place>): Index {
    if places == [] then []
    else Entries(places[..|places| - 1]) + PlaceEntries(places[|places| - 1])
  }

  /** Every `set` the load performs on the prefix index, in order: only places with `isPrefix`. */
  function PrefixEntries(places: seq<Place>): Index {
    if places == [] then []
    else
      var last := places[|places| - 1];
      PrefixEntries(places[..|places| - 1]) + (if last.isPrefix then PlaceEntries(last) else [])
  }

  function ExactIndex(places: seq<Place>): Index {
    SetAll([], Entries(places))
  }

  function PrefixIndex(places: seq<Place>): Index {
    SetAll([], PrefixEntries(places))
  }

  /** The position of the first entry of `ix` whose key is a prefix of `key`. */
  function FirstPrefixMatch(ix: Index, key: string): (r: Option<nat>)
    ensures r.None? <==> forall j :: 0 <= j < |ix| ==> !StartsWith(key, ix[j].0)
    ensures r.Some? ==> r.value < |ix| && StartsWith(key, ix[r.value].0)
    ensures r.Some? ==> forall j :: 0 <= j < r.value ==> !StartsWith(key, ix[j].0)
  {
    if ix == [] then None
    else if StartsWith(key, ix[0].0) then Some(0)
    else
      match FirstPrefixMatch(ix[1..], key)
      case None => None
      case Some(i) => Some(i + 1)
  }

  /**
   * `findPlace` on an already lower-cased key: an exact hit wins; otherwise
   * the first prefix entry whose key starts `key`; null when neither exists.
   */
  function Lookup(exact: Index, prefix: Index, key: string): (r: Option<Place>)
    ensures key in Keys(exact) ==> r == Get(exact, key)
    ensures r.None? <==> key !in Keys(exact) && forall j :: 0 <= j < |prefix| ==> !StartsWith(key, prefix[j].0)
    ensures r.Some? && key !in Keys(exact) ==>
              exists j :: 0 <= j < |prefix| && StartsWith(key, prefix[j].0) && prefix[j].1 == r.value
  {
    match Get(exact, key)
    case Some(p) => Some(p)
    case None =>
      match FirstPrefixMatch(prefix, key)
      case Some(i) => Some(prefix[i].1)
      case None => None
  }

  /**
   * What `findPlace(input)` returns on a repository loaded from `places`: a
   * place of the dataset, found under the input itself or, for a prefix
   * place, under one of its keys that starts the input.
   */
  function ResolvePlace(places: seq<Place>, input: string): (r: Option<Place>)
    ensures r.Some? ==> r.value in places
    ensures r.Some? ==>
              || Lower(input) in PlaceKeys(r.value)
              || (r.value.isPrefix && exists k :: k in PlaceKeys(r.value) && StartsWith(Lower(input), k))
  {
    LookupFromDataset(places, Lower(input));
    Lookup(ExactIndex(places), PrefixIndex(places), Lower(input))
  }

  lemma {:induction false} EntriesFrom(places: seq<Place>, e: (string, Place))
    requires e in Entries(places)
    ensures e.1 in places && e.0 in PlaceKeys(e.1)
  {
    if places != [] {
      var init := places[..|places| - 1];
      var last := places[|places| - 1];
      if e in Entries(init) {
        EntriesFrom(init, e);
      } else {
        assert e in PlaceEntries(last);
        var t :| 0 <= t < |PlaceEntries(last)| && PlaceEntries(last)[t] == e;
        assert Keys(PlaceEntries(last))[t] == e.0;
      }
    }
  }

  lemma {:induction false} PrefixEntriesFrom(places: seq<Place>, e: (string, Place))
    requires e in PrefixEntries(places)
    ensures e.1 in places && e.1.isPrefix && e.0 in PlaceKeys(e.1)
  {
    if places != [] {
      var init := places[..|places| - 1];
      var last := places[|places| - 1];
      if e in PrefixEntries(init) {
        PrefixEntriesFrom(init, e);
      } else {
        assert e in PlaceEntries(last);
        var t :| 0 <= t < |PlaceEntries(last)| && PlaceEntries(last)[t] == e;
        assert Keys(PlaceEntries(last))[t] == e.0;
      }
    }
  }

  /** Both indices only hold places of the dataset, each under one of its own keys. */
  lemma LookupFromDataset(places: seq<Place>, key: string)
    ensures var r := Lookup(ExactIndex(places), PrefixIndex(places), key);
      r.Some? ==>
        && r.value in places
        && (key in PlaceKeys(r.value) || (r.value.isPrefix && exists k :: k in PlaceKeys(r.value) && StartsWith(key, k)))
  {
    var exact := ExactIndex(places);
    var prefix := PrefixIndex(places);
    var r := Lookup(exact, prefix, key);
    if r.Some? {
      if key in Keys(exact) {
        SetAllEntries([], Entries(places), (key, r.value));
        EntriesFrom(places, (key, r.value));
      } else {
        var j :| 0 <= j < |prefix| && StartsWith(key, prefix[j].0) && prefix[j].1 == r.value;
        assert prefix[j] in prefix;
        SetAllEntries([], PrefixEntries(places), prefix[j]);
        PrefixEntriesFrom(places, prefix[j]);
      }
    }
  }

  /** The last place of the list that is indexed under `key`: an independent statement of "last writer wins". */
  function LastOwner(places: seq<Place>, key: string): (r: Option<nat>)
    ensures r.None? ==> forall j :: 0 <= j < |places| ==> key !in PlaceKeys(places[j])
    ensures r.Some? ==> r.value < |places| && key in PlaceKeys(places[r.value])
    ensures r.Some? ==> forall j :: r.value < j < |places| ==> key !in PlaceKeys(places[j])
  {
    if places == [] then None
    else if key in PlaceKeys(places[|places| - 1]) then Some(|places| - 1)
    else LastOwner(places[..|places| - 1], key)
  }

  lemma EntriesSnoc(places: seq<Place>, i: nat)
    requires i < |places|
    ensures Entries(places[..i + 1]) == Entries(places[..i]) + PlaceEntries(places[i])
    ensures places[i].isPrefix ==> PrefixEntries(places[..i + 1]) == PrefixEntries(places[..i]) + PlaceEntries(places[i])
    ensures !places[i].isPrefix ==> PrefixEntries(places[..i + 1]) == PrefixEntries(places[..i])
  {
    assert places[..i + 1][..i] == places[..i];
    var prev := PrefixEntries(places[..i]);
    assert prev + [] == prev;
  }

  /** Adding one more place to the dataset adds its entries to the exact index. */
  lemma ExactIndexStep(places: seq<Place>, i: nat)
    requires i < |places|
    ensures ExactIndex(places[..i + 1]) == SetAll(ExactIndex(places[..i]), PlaceEntries(places[i]))
  {
    EntriesSnoc(places, i);
    SetAllAppend([], Entries(places[..i]), PlaceEntries(places[i]));
  }

  /** Adding one more place adds its entries to the prefix index when it is a prefix place, and nothing otherwise. */
  lemma PrefixIndexStep(places: seq<Place>, i: nat)
    requires i < |places|
    ensures places[i].isPrefix ==> PrefixIndex(places[..i + 1]) == SetAll(PrefixIndex(places[..i]), PlaceEntries(places[i]))
    ensures !places[i].isPrefix ==> PrefixIndex(places[..i + 1]) == PrefixIndex(places[..i])
  {
    EntriesSnoc(places, i);
    if places[i].isPrefix {
      SetAllAppend([], PrefixEntries(places[..i]), PlaceEntries(places[i]));
    }
  }

  /** A place's entries: its lower-cased name first, then each lower-cased alias, all mapped to the place. */
  lemma PlaceEntriesAt(place: Place)
    ensures |PlaceEntries(place)| == |place.aliases| + 1
    ensures PlaceEntries(place)[0] == (Lower(place.name), place)
    ensures forall j :: 0 <= j < |place.aliases| ==> PlaceEntries(place)[j + 1] == (LowerAll(place.aliases)[j], place)
  {
    var es := PlaceEntries(place);
    assert Keys(es)[0] == PlaceKeys(place)[0];
    forall j | 0 <= j < |place.aliases|
      ensures es[j + 1] == (LowerAll(place.aliases)[j], place)
    {
      assert Keys(es)[j + 1] == PlaceKeys(place)[j + 1];
    }
  }

  /** The entry behind the name for alias `j` is that alias, lower-cased, mapped to the place. */
  lemma AliasEntry(place: Place, j: nat)
    requires j < |place.aliases|
    ensures j + 1 < |PlaceEntries(place)|
    ensures PlaceEntries(place)[j + 1] == (LowerAll(place.aliases)[j], place)
  {
    var es := PlaceEntries(place);
    assert Keys(es)[j + 1] == PlaceKeys(place)[j + 1];
  }

  /** Setting the next alias extends the run of `set`s by the next entry of the place. */
  lemma AliasStep(m: Index, place: Place, j: nat)
    requires j < |place.aliases|
    ensures SetAll(m, PlaceEntries(place)[..j + 2])
         == Set(SetAll(m, PlaceEntries(place)[..j + 1]), LowerAll(place.aliases)[j], place)
  {
    AliasEntry(place, j);
    SetAllSnocAt(m, PlaceEntries(place), j + 1, LowerAll(place.aliases)[j], place);
  }

  lemma AliasesDone(place: Place)
    ensures PlaceEntries(place)[..|LowerAll(place.aliases)| + 1] == PlaceEntries(place)
  {
    PlaceEntriesAt(place);
  }

  class PlaceRepository {
    var dataSource: seq<Place>
    var exactMatchMap: Index
    var prefixMatchMap: Index

    ghost predicate Valid()
      reads this
    {
      exactMatchMap == ExactIndex(dataSource) && prefixMatchMap == PrefixIndex(dataSource)
    }

    /** Loads the dataset (the `require` of places.json is the parameter) and fills both indices. */
    constructor (places: seq<Place>)
      ensures dataSource == places
      ensures Valid()
    {
      var exact: Index := [];
      var prefix: Index := [];
      var i := 0;
      while i < |places|
        invariant 0 <= i <= |places|
        invariant exact == ExactIndex(places[..i])
        invariant prefix == PrefixIndex(places[..i])
      {
        var place := places[i];
        ExactIndexStep(places, i);
        exact := SetAllEntriesOf(exact, place);
        PrefixIndexStep(places, i);
        if place.isPrefix {
          prefix := SetAllEntriesOf(prefix, place);
        }
        i := i + 1;
      }
      assert places[..|places|] == places;
      dataSource := places;
      exactMatchMap := exact;
      prefixMatchMap := prefix;
    }

    /** `map.set(name, place)` followed by `map.set(alias, place)` for each alias. */
    static method SetAllEntriesOf(m: Index, place: Place) returns (r: Index)
      ensures r == SetAll(m, PlaceEntries(place))
    {
      PlaceEntriesAt(place);
      SetAllSnoc(m, PlaceEntries(place), 0);
      r := Set(m, Lower(place.name), place);
      r := SetAliases(r, m, place);
    }

    /** `aliases.forEach(alias => map.set(alias, place))`, after the name has been set. */
    static method SetAliases(named: Index, ghost m: Index, place: Place) returns (r: Index)
      requires named == SetAll(m, PlaceEntries(place)[..1])
      ensures r == SetAll(m, PlaceEntries(place))
    {
      var aliases := LowerAll(place.aliases);
      r := named;
      var j := 0;
      while j < |aliases|
        invariant 0 <= j <= |aliases|
        invariant r == SetAll(m, PlaceEntries(place)[..j + 1])
      {
        AliasStep(m, place, j);
        r := Set(r, aliases[j], place);
        j := j + 1;
      }
      AliasesDone(place);
    }

    /** `findPlace(name)`: the exact hit if any, else the first prefix entry in insertion order, else null. */
    method FindPlace(name: string) returns (r: Option<Place>)
      ensures r == Lookup(exactMatchMap, prefixMatchMap, Lower(name))
      ensures Valid() ==> r == ResolvePlace(dataSource, name)
    {
      var key := Lower(name);
      var exactMatch := Get(exactMatchMap, key);
      if exactMatch.Some? {
        return exactMatch;
      }
      var prefixes := prefixMatchMap;
      var i := 0;
      while i < |prefixes|
        invariant 0 <= i <= |prefixes|
        invariant forall j :: 0 <= j < i ==> !StartsWith(key, prefixes[j].0)
      {
        var (prefix, place) := prefixes[i];
        if StartsWith(key, prefix) {
          assert FirstPrefixMatch(prefixes, key) == Some(i);
          return Some(place);
        }
        i := i + 1;
      }
      return None;
    }

    /** `getAllPlaceNames()`: the loaded dataset, unchanged and in order. */
    method GetAllPlaceNames() returns (r: seq<Place>)
      ensures r == dataSource
    {
      r := dataSource;
    }
  }
}
