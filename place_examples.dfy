/**
 * The place fixture of components/PlaceRepository.test.js and some of the
 * lookups its cases make, derived from the general properties.
 */
module PlaceExamples {
  import opened Wrappers
  import opened Text
  import opened AssocList
  import opened Places
  import opened PlaceProperties

  const Sekretariat := Place("Sekretariat", ["Seki"], false, false, Some(1.0), Some(1.0), Some("Test description 1"))
  const C5 := Place("C5", [], true, false, Some(2.0), Some(2.0), Some("Test description 2"))
  const Mensa := Place("Mensa", [], false, false, Some(3.0), Some(3.0), Some("Test description 3"))
  const Turnhalle := Place("Turnhalle 1", ["TH1"], true, false, Some(4.0), Some(4.0), Some("Test description 4"))

  const Fixture := [Sekretariat, C5, Mensa, Turnhalle]

  lemma SekretariatKeys()
    ensures PlaceKeys(Sekretariat) == ["sekretariat", "seki"]
  {
    assert Lower("Seki") == "seki" && Lower("Sekretariat") == "sekretariat";
    assert LowerAll(["Seki"]) == ["seki"];
  }

  lemma C5Entries()
    ensures PlaceKeys(C5) == ["c5"]
    ensures PlaceEntries(C5) == [("c5", C5)]
  {
    assert Lower("C5") == "c5";
    assert LowerAll([]) == [];
  }

  lemma MensaKeys()
    ensures PlaceKeys(Mensa) == ["mensa"]
  {
    assert Lower("Mensa") == "mensa";
    assert LowerAll([]) == [];
  }

  lemma TurnhalleEntries()
    ensures PlaceKeys(Turnhalle) == ["turnhalle 1", "th1"]
    ensures PlaceEntries(Turnhalle) == [("turnhalle 1", Turnhalle), ("th1", Turnhalle)]
  {
    assert Lower("Turnhalle 1") == "turnhalle 1" && Lower("TH1") == "th1";
    assert LowerAll(["TH1"]) == ["th1"];
  }

  /** A key that is none of the fixture's six names and aliases has no owner. */
  lemma FixtureOwnerless(key: string)
    requires key != "sekretariat" && key != "seki" && key != "c5"
    requires key != "mensa" && key != "turnhalle 1" && key != "th1"
    ensures LastOwner(Fixture, key).None?
  {
    SekretariatKeys();
    C5Entries();
    MensaKeys();
    TurnhalleEntries();
    forall j | 0 <= j < |Fixture|
      ensures key !in PlaceKeys(Fixture[j])
    {
      if j == 0 {
        assert Fixture[j] == Sekretariat;
      } else if j == 1 {
        assert Fixture[j] == C5;
      } else if j == 2 {
        assert Fixture[j] == Mensa;
      } else {
        assert Fixture[j] == Turnhalle;
      }
    }
  }

  /** An alias in another letter case finds its place. */
  lemma FindsAliasIgnoringCase()
    ensures ResolvePlace(Fixture, "SEKI") == Some(Sekretariat)
  {
    assert Lower("SEKI") == "seki";
    SekretariatKeys();
    C5Entries();
    MensaKeys();
    TurnhalleEntries();
    ResolveOwnKey(Fixture, 0, "SEKI");
  }

  /** A name that only begins with the name of a place that is not a prefix place finds nothing. */
  lemma NoPrefixMatchForPlainPlace()
    ensures ResolvePlace(Fixture, "Mensa-Extra") == None
  {
    var key := Lower("Mensa-Extra");
    assert key == "mensa-extra";
    assert key[0] == 'm' && |key| == 11;
    FixtureOwnerless(key);
    C5Entries();
    TurnhalleEntries();
    forall i, k | 0 <= i < |Fixture| && Fixture[i].isPrefix && k in PlaceKeys(Fixture[i])
      ensures !StartsWith(key, k)
    {
      assert k[0] != key[0];
    }
    ResolveNoneIff(Fixture, "Mensa-Extra");
  }

  /** An input that begins with the key of a prefix place finds that place, whatever follows the key. */
  lemma FindsByPrefix()
    ensures ResolvePlace(Fixture, "c5-xyz") == Some(C5)
  {
    PrefixKeyWins("c5-xyz", "c5");
    FixtureLastPrefixValues();
  }

  /** An input that begins with the alias of a prefix place finds that place. */
  lemma FindsByAliasPrefix()
    ensures ResolvePlace(Fixture, "TH1-abc") == Some(Turnhalle)
  {
    PrefixKeyWins("TH1-abc", "th1");
    FixtureLastPrefixValues();
  }

  /** An input that is no exact key and starts exactly one of the fixture's prefix keys resolves through that key. */
  lemma PrefixKeyWins(input: string, k: string)
    requires (input, k) in {("c5-xyz", "c5"), ("TH1-abc", "th1")}
    ensures ResolvePlace(Fixture, input) == LastValue(PrefixEntries(Fixture), k)
  {
    var key := Lower(input);
    if input == "TH1-abc" {
      assert key == "th1-abc";
      assert key[..2] != "c5" by { assert key[..2][0] != "c5"[0]; }
    } else {
      assert key == "c5-xyz";
      assert key[..3] != "th1" by { assert key[..3][0] != "th1"[0]; }
    }
    assert |key| < |"turnhalle 1"|;
    FixtureOwnerless(key);
    KeysOfFixturePrefixEntries();
    assert StartsWith(key, k);
    ResolveEarliestPrefix(Fixture, input, k);
  }

  lemma FixtureLastPrefixValues()
    ensures LastValue(PrefixEntries(Fixture), "c5") == Some(C5)
    ensures LastValue(PrefixEntries(Fixture), "th1") == Some(Turnhalle)
  {
    var es := PrefixEntries(Fixture);
    FixturePrefixEntries();
    var later := [("turnhalle 1", Turnhalle), ("th1", Turnhalle)];
    assert es == [("c5", C5)] + later;
    assert Keys(later) == ["turnhalle 1", "th1"];
    LastValueAppend([("c5", C5)], later, "c5");
  }

  lemma KeysOfFixturePrefixEntries()
    ensures Keys(PrefixEntries(Fixture)) == ["c5", "turnhalle 1", "th1"]
  {
    FixturePrefixEntries();
  }

  /** Only the first two places are loaded: the prefix index receives C5's key alone. */
  lemma FixturePrefixEntriesOfTwo()
    ensures PrefixEntries(Fixture[..2]) == [("c5", C5)]
  {
    C5Entries();
    EntriesSnoc(Fixture, 0);
    EntriesSnoc(Fixture, 1);
    assert Fixture[..0] == [];
  }

  lemma FixturePrefixEntries()
    ensures PrefixEntries(Fixture) == [("c5", C5), ("turnhalle 1", Turnhalle), ("th1", Turnhalle)]
  {
    FixturePrefixEntriesOfTwo();
    TurnhalleEntries();
    EntriesSnoc(Fixture, 2);
    EntriesSnoc(Fixture, 3);
    assert Fixture[..4] == Fixture;
  }
}
