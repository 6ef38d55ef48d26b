/** Properties of classify_mood over the fixed catalog of
    mood_classifier.py:18-37: which labels it can return, exactly when the
    default is reached, which entries the fuzzy tier can pick, and the
    worked examples. */
module MoodFacts {
  import opened Wrappers
  import opened MoodCatalog
  import opened MoodClassifier

  /** Exactly the first seven entries carry a fuzzy energy threshold. */
  lemma FuzzyEligibleAreFirstSeven(i: int)
    requires 0 <= i < |MoodCategories|
    ensures |CoreMoods + FuzzyMoods| == 7
    ensures MoodCategories[i].fuzzyEnergyThresh.Some? <==> i < 7
  {
    if i < 7 {
      assert MoodCategories[i] == (CoreMoods + FuzzyMoods)[i];
      assert MoodCategories[i] in CoreMoods + FuzzyMoods;
    } else {
      assert MoodCategories[i] == OtherMoods[i - 7];
      assert MoodCategories[i] in OtherMoods;
    }
  }

  /** The fuzzy tier only ever picks one of the first seven entries, so it
      never yields 空灵, 躁动, 迷幻, 温柔 or 压抑. */
  lemma FuzzyTierExcludesOtherMoods(bpm: real, energy: real, i: int)
    requires IsFirstHit(MoodCategories, Fuzzy, bpm, energy, i)
    ensures i < 7
    ensures MoodCategories[i].name !in Names(OtherMoods)
  {
    FuzzyEligibleAreFirstSeven(i);
    assert MoodCategories[i] in CoreMoods + FuzzyMoods;
  }

  /** Every entry's bpm range ends at or below 200, and every fuzzy-eligible
      entry's bpm centre is at most 175. */
  lemma CatalogTempoCeiling(i: int)
    requires 0 <= i < |MoodCategories|
    ensures MoodCategories[i].bpmRange.hi <= 200.0
    ensures MoodCategories[i].fuzzyEnergyThresh.Some? ==> MoodCategories[i].bpmRange.Mid() <= 175.0
  {
    assert MoodCategories[i] in MoodCategories;
  }

  /** From 200 bpm up, no entry is accepted by any scanning tier. */
  lemma NoHitFromTwoHundred(bpm: real, energy: real)
    requires bpm >= 200.0
    ensures NoHit(MoodCategories, Exact, bpm, energy)
    ensures NoHit(MoodCategories, Fuzzy, bpm, energy)
    ensures NoHit(MoodCategories, BpmOnly, bpm, energy)
  {
    forall j | 0 <= j < |MoodCategories|
      ensures !Hits(Exact, MoodCategories[j], bpm, energy)
      ensures !Hits(Fuzzy, MoodCategories[j], bpm, energy)
      ensures !Hits(BpmOnly, MoodCategories[j], bpm, energy)
    {
      CatalogTempoCeiling(j);
    }
  }

  /** From 200 bpm up, with energy not low enough for the override, every
      tier misses and the default label is returned. */
  lemma DefaultFromTwoHundred(bpm: real, energy: real)
    requires energy >= 0.05 && bpm >= 200.0
    ensures ClassifyMood(bpm, energy) == DefaultMood
  {
    NoHitFromTwoHundred(bpm, energy);
  }

  /** Between 20 and 200 bpm, with energy at least 0.05, some scanning tier
      always decides: the last entry's bpm range [0, 200) catches the track
      in the bpm-only tier if nothing earlier does, so a catalog name is
      returned. */
  lemma CatalogDecidesBelowTwoHundred(bpm: real, energy: real)
    requires energy >= 0.05 && 20.0 <= bpm < 200.0
    ensures ClassifyMood(bpm, energy) in Names(MoodCategories)
  {
    assert Hits(BpmOnly, MoodCategories[11], bpm, energy);
    FirstHitExists(MoodCategories, BpmOnly, bpm, energy, 11);
    var exact := FirstHit(MoodCategories, Exact, bpm, energy);
    var fuzzy := FirstHit(MoodCategories, Fuzzy, bpm, energy);
    var byBpm := FirstHit(MoodCategories, BpmOnly, bpm, energy);
    var i := if exact.Some? then exact.value else if fuzzy.Some? then fuzzy.value else byBpm.value;
    assert ClassifyMood(bpm, energy) == MoodCategories[i].name == Names(MoodCategories)[i];
  }

  /** Despite being meant as unreachable, the default label is returned
      exactly when energy is at least 0.05 and bpm is at least 200. */
  lemma DefaultExactlyFromTwoHundred(bpm: real, energy: real)
    ensures ClassifyMood(bpm, energy) == DefaultMood <==> energy >= 0.05 && bpm >= 200.0
  {
    CatalogWellFormed();
    if energy >= 0.05 && bpm >= 200.0 {
      DefaultFromTwoHundred(bpm, energy);
    } else if energy >= 0.05 && bpm >= 20.0 {
      CatalogDecidesBelowTwoHundred(bpm, energy);
    }
  }

  /** The worked examples: an exact match, a bpm-only fallback, and the
      three override labels (bpm 0 included). */
  lemma WorkedExamples()
    ensures ClassifyMood(170.0, 0.9) == "亢奋"
    ensures ClassifyMood(100.0, 0.9) == "欢快"
    ensures ClassifyMood(10.0, 0.1) == "空灵"
    ensures ClassifyMood(10.0, 0.5) == "忧郁"
    ensures ClassifyMood(0.0, 0.0) == "压抑"
  {
    assert IsFirstHit(MoodCategories, Exact, 170.0, 0.9, 0);
    NoExactOrFuzzyHitAt100();
    assert IsFirstHit(MoodCategories, BpmOnly, 100.0, 0.9, 2);
  }

  /** At 100 bpm and energy 0.9 neither the exact nor the fuzzy tier fires. */
  lemma NoExactOrFuzzyHitAt100()
    ensures NoHit(MoodCategories, Exact, 100.0, 0.9)
    ensures NoHit(MoodCategories, Fuzzy, 100.0, 0.9)
  {
    forall j | 0 <= j < |MoodCategories|
      ensures !Hits(Exact, MoodCategories[j], 100.0, 0.9)
      ensures !Hits(Fuzzy, MoodCategories[j], 100.0, 0.9)
    {
      assert MoodCategories[j] in MoodCategories;
    }
  }
}
