/**
 * What `findPlace` promises, stated over the ordered place list the
 * repository was loaded from (components/PlaceRepository.js and its tests).
 */
module PlaceProperties {
  import opened Wrappers
  import opened Text
  import opened AssocList
  import opened Places

  // ---- The load: which keys each index holds, and with which place ----

  lemma {:induction false} EntriesLastValue(places: seq<Place>, k: string)
    ensures k in Keys(Entries(places)) <==> LastOwner(places, k).Some?
    ensures LastOwner(places, k).Some? ==> LastValue(Entries(places), k) == Some(places[LastOwner(places, k).value])
  {
    if places != [] {
      var init := places[..|places| - 1];
      var last := places[|places| - 1];
      LastValueAppend(Entries(init), PlaceEntries(last), k);
      EntriesLastValue(init, k);
      if k !in PlaceKeys(last) {
        assert forall j :: 0 <= j < |init| ==> init[j] == places[j];
      }
    }
  }

  /** On duplicate keys the exact index holds the place inserted last for that key; a key nobody owns is absent. */
  lemma ExactIndexLastWriterWins(places: seq<Place>, k: string)
    ensures Get(ExactIndex(places), k) == match LastOwner(places, k)
                                         case Some(i) => Some(places[i])
                                         case None => None
  {
    SetAllGet([], Entries(places), k);
    EntriesLastValue(places, k);
  }

  lemma {:induction false} PrefixEntriesKeys(places: seq<Place>, k: string)
    ensures k in Keys(PrefixEntries(places))
        <==> exists i :: 0 <= i < |places| && places[i].isPrefix && k in PlaceKeys(places[i])
  {
    if places != [] {
      var n := |places| - 1;
      var init := places[..n];
      var last := places[n];
      PrefixEntriesKeys(init, k);
      var extra := if last.isPrefix then PlaceEntries(last) else [];
      assert PrefixEntries(places) == PrefixEntries(init) + extra;
      KeysAppend(PrefixEntries(init), extra);
      if k in Keys(PrefixEntries(places)) {
        if k in Keys(PrefixEntries(init)) {
          var i :| 0 <= i < |init| && init[i].isPrefix && k in PlaceKeys(init[i]);
          assert places[i] == init[i];
        } else {
          assert last.isPrefix && k in PlaceKeys(last);
        }
      }
      if exists i :: 0 <= i < |places| && places[i].isPrefix && k in PlaceKeys(places[i]) {
        var i :| 0 <= i < |places| && places[i].isPrefix && k in PlaceKeys(places[i]);
        if i < n {
          assert init[i] == places[i];
        }
      }
    }
  }

  /** The prefix index only holds places flagged `isPrefix`, each under one of its own keys. */
  lemma PrefixIndexOnlyPrefixPlaces(places: seq<Place>, e: (string, Place))
    requires e in PrefixIndex(places)
    ensures e.1 in places && e.1.isPrefix && e.0 in PlaceKeys(e.1)
  {
    SetAllEntries([], PrefixEntries(places), e);
    PrefixEntriesFrom(places, e);
  }

  // ---- findPlace ----

  /** An exact key is answered from the exact index: by the last place indexed under it, whatever the prefix index holds. */
  lemma ResolveExactKey(places: seq<Place>, input: string)
    requires LastOwner(places, Lower(input)).Some?
    ensures ResolvePlace(places, input) == Some(places[LastOwner(places, Lower(input)).value])
  {
    ExactIndexLastWriterWins(places, Lower(input));
  }

  /** A place's name or alias, in any letter case, finds that place when no other place has the same key. */
  lemma ResolveOwnKey(places: seq<Place>, i: nat, input: string)
    requires i < |places| && Lower(input) in PlaceKeys(places[i])
    requires forall j :: 0 <= j < |places| && j != i ==> Lower(input) !in PlaceKeys(places[j])
    ensures ResolvePlace(places, input) == Some(places[i])
  {
    var owner := LastOwner(places, Lower(input));
    assert owner.Some? && owner.value == i;
    ResolveExactKey(places, input);
  }

  /** A place without `isPrefix` is found only through an exact key, never through a longer input. */
  lemma NonPrefixPlaceOnlyByExactKey(places: seq<Place>, input: string, p: Place)
    requires ResolvePlace(places, input) == Some(p) && !p.isPrefix
    ensures LastOwner(places, Lower(input)).Some?
    ensures places[LastOwner(places, Lower(input)).value] == p
  {
    var key := Lower(input);
    ExactIndexLastWriterWins(places, key);
    if LastOwner(places, key).None? {
      assert false;
    }
  }

  /** The prefix scan stops at the key, among those that start `key`, whose first `set` came first. */
  lemma EarliestPrefixPosition(es: Index, key: string, k: string)
    requires k in Keys(es) && StartsWith(key, k)
    requires forall k' :: k' in Keys(es) && StartsWith(key, k') && k' != k ==> FirstIndex(Keys(es), k) < FirstIndex(Keys(es), k')
    ensures FirstPrefixMatch(SetAll([], es), key).Some?
    ensures SetAll([], es)[FirstPrefixMatch(SetAll([], es), key).value].0 == k
  {
    var ix := SetAll([], es);
    SetAllKeys([], es);
    assert k in Keys(ix);
    var t := FirstIndex(Keys(ix), k);
    assert ix[t].0 == k;
    var m := FirstPrefixMatch(ix, key).value;
    if m != t {
      assert m < t;
      SetAllOrder(es, m, t);
      assert false;
    }
  }

  /**
   * For an input that is no exact key, the answer comes from the prefix key
   * that was inserted first among those that are a prefix of the input, and it
   * is the last prefix place indexed under that key.
   */
  lemma ResolveEarliestPrefix(places: seq<Place>, input: string, k: string)
    requires LastOwner(places, Lower(input)).None?
    requires k in Keys(PrefixEntries(places)) && StartsWith(Lower(input), k)
    requires forall k' :: k' in Keys(PrefixEntries(places)) && StartsWith(Lower(input), k') && k' != k
               ==> FirstIndex(Keys(PrefixEntries(places)), k) < FirstIndex(Keys(PrefixEntries(places)), k')
    ensures ResolvePlace(places, input) == LastValue(PrefixEntries(places), k)
    ensures ResolvePlace(places, input).Some?
  {
    var es := PrefixEntries(places);
    var ix := PrefixIndex(places);
    ExactIndexLastWriterWins(places, Lower(input));
    EarliestPrefixPosition(es, Lower(input), k);
    SetAllKeys([], es);
    GetEntry(ix, FirstPrefixMatch(ix, Lower(input)).value);
    SetAllGet([], es, k);
  }

  /** The prefix index holds exactly the keys of the places flagged `isPrefix`. */
  lemma PrefixIndexKeys(places: seq<Place>, k: string)
    ensures k in Keys(PrefixIndex(places))
        <==> exists i :: 0 <= i < |places| && places[i].isPrefix && k in PlaceKeys(places[i])
  {
    SetAllKeys([], PrefixEntries(places));
    PrefixEntriesKeys(places, k);
  }

  /** `findPlace` returns null exactly when the input is no exact key and no prefix place has a key that starts it. */
  lemma ResolveNoneIff(places: seq<Place>, input: string)
    ensures ResolvePlace(places, input).None?
        <==> LastOwner(places, Lower(input)).None?
             && forall i, k :: 0 <= i < |places| && places[i].isPrefix && k in PlaceKeys(places[i])
                  ==> !StartsWith(Lower(input), k)
  {
    var key := Lower(input);
    ExactIndexLastWriterWins(places, key);
    if LastOwner(places, key).None? {
      var ix := PrefixIndex(places);
      if FirstPrefixMatch(ix, key).Some? {
        var m := FirstPrefixMatch(ix, key).value;
        assert Keys(ix)[m] == ix[m].0;
        PrefixIndexKeys(places, ix[m].0);
      } else {
        forall i, k | 0 <= i < |places| && places[i].isPrefix && k in PlaceKeys(places[i])
          ensures !StartsWith(key, k)
        {
          PrefixIndexKeys(places, k);
          var t :| 0 <= t < |ix| && Keys(ix)[t] == k;
        }
      }
    }
  }

  /** A prefix place with an empty key (an alias "") makes every input resolve to some place. */
  lemma EmptyPrefixKeyMatchesEverything(places: seq<Place>, i: nat, input: string)
    requires i < |places| && places[i].isPrefix && "" in PlaceKeys(places[i])
    ensures ResolvePlace(places, input).Some?
  {
    ResolveNoneIff(places, input);
    assert StartsWith(Lower(input), "");
  }

  /** Lookup is case-insensitive: the input and its lower-cased form resolve alike. */
  lemma ResolveIgnoresCase(places: seq<Place>, input: string)
    ensures ResolvePlace(places, input) == ResolvePlace(places, Lower(input))
  {
    LowerIdempotent(input);
  }
}
