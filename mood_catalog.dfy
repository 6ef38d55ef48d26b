/** The static, ordered catalog of mood categories (mood_classifier.py:17-37).
    Order is part of the meaning: every matching tier of the classifier
    breaks ties by position in this list. */
module MoodCatalog {
  import opened Wrappers

  /** A half-open interval [lo, hi) of reals. */
  datatype Range = Range(lo: real, hi: real) {

    /** Membership with the lower bound included and the upper one excluded. */
    predicate Contains(x: real) {
      lo <= x < hi
    }

    /** The centre of the interval, as the mean of its two bounds. */
    function Mid(): (m: real)
      ensures lo <= hi ==> lo <= m <= hi
      ensures lo < hi ==> Contains(m)
      ensures m - lo == hi - m
    {
      (lo + hi) / 2.0
    }
  }

  /** One catalog entry. A present fuzzyEnergyThresh makes the entry eligible
      for the fuzzy (centre-distance) tier; an absent one excludes it. */
  datatype MoodCategory = MoodCategory(
    name: string,
    bpmRange: Range,
    energyRange: Range,
    fuzzyEnergyThresh: Option<real>)

  // ===== core moods =====
  const CoreMoods: seq<MoodCategory> := [
    MoodCategory("亢奋", Range(150.0, 200.0), Range(0.85, 1.0), Some(0.1)),
    MoodCategory("激昂", Range(120.0, 160.0), Range(0.6, 0.95), Some(0.15)),
    MoodCategory("欢快", Range(90.0, 130.0), Range(0.4, 0.85), Some(0.1)),
    MoodCategory("舒缓", Range(60.0, 100.0), Range(0.2, 0.65), Some(0.1))
  ]

  // ===== moods meant to be reached by fuzzy matching =====
  const FuzzyMoods: seq<MoodCategory> := [
    MoodCategory("忧郁", Range(40.0, 80.0), Range(0.05, 0.4), Some(0.05)),
    MoodCategory("感伤", Range(50.0, 90.0), Range(0.1, 0.3), Some(0.05)),
    MoodCategory("紧张", Range(130.0, 170.0), Range(0.05, 0.3), Some(0.05))
  ]

  // ===== other moods: exact or bpm-only matching, never fuzzy =====
  const OtherMoods: seq<MoodCategory> := [
    MoodCategory("空灵", Range(20.0, 60.0), Range(0.0, 0.25), None),
    MoodCategory("躁动", Range(80.0, 140.0), Range(0.7, 0.9), None),
    MoodCategory("迷幻", Range(60.0, 120.0), Range(0.25, 0.45), None),
    MoodCategory("温柔", Range(70.0, 110.0), Range(0.15, 0.35), None),
    MoodCategory("压抑", Range(0.0, 200.0), Range(0.0, 0.05), None)
  ]

  /** The whole catalog, in the order the classifier scans it. */
  const MoodCategories: seq<MoodCategory> := CoreMoods + FuzzyMoods + OtherMoods

  /** The label returned when no tier matches. */
  const DefaultMood: string := "其它"

  /** Labels that the two override tiers return without scanning the catalog. */
  const Suppressed: string := "压抑"
  const Ethereal: string := "空灵"
  const Melancholic: string := "忧郁"

  /** The names of a catalog, in order. */
  function Names(cats: seq<MoodCategory>): (ns: seq<string>)
    ensures |ns| == |cats|
    ensures forall i :: 0 <= i < |cats| ==> ns[i] == cats[i].name
  {
    seq(|cats|, i requires 0 <= i < |cats| => cats[i].name)
  }

  /** Basic well-formedness of one entry: proper ranges, positive threshold. */
  predicate WellFormedCategory(c: MoodCategory) {
    c.bpmRange.lo < c.bpmRange.hi &&
    c.energyRange.lo < c.energyRange.hi &&
    (c.fuzzyEnergyThresh.Some? ==> c.fuzzyEnergyThresh.value > 0.0)
  }

  /** Well-formedness of a catalog: every entry well formed, names distinct. */
  predicate WellFormedCatalog(cats: seq<MoodCategory>) {
    (forall i :: 0 <= i < |cats| ==> WellFormedCategory(cats[i])) &&
    (forall i, j :: 0 <= i < j < |cats| ==> cats[i].name != cats[j].name)
  }

  /** The fixed catalog is well formed, has twelve entries, and the override
      labels and the default relate to it as the classifier relies on. */
  lemma CatalogWellFormed()
    ensures |MoodCategories| == 12
    ensures WellFormedCatalog(MoodCategories)
    ensures MoodCategories[11].name == Suppressed
    ensures MoodCategories[7].name == Ethereal
    ensures MoodCategories[4].name == Melancholic
    ensures DefaultMood !in Names(MoodCategories)
  {
  }
}
