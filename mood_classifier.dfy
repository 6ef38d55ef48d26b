/** The mood decision engine: classify_mood (mood_classifier.py:44-72).
    Six tiers run in strict order and the first one that fires decides:
    the energy override, the low-tempo override, an exact 2-D range match,
    a fuzzy match on range centres, a bpm-only match, and the default.
    The three scanning tiers are parameterised by the catalog so that their
    tie-break by catalog order can be stated for any catalog; ClassifyMood
    is the engine over the fixed catalog. */
module MoodClassifier {
  import opened Wrappers
  import opened MoodCatalog

  /** Energy below this is the suppressed mood whatever the tempo. */
  const LowEnergyLimit: real := 0.05
  /** Tempo below this skips the catalog scans. */
  const LowTempoLimit: real := 20.0
  /** Below this energy a very slow track is ethereal, otherwise melancholic. */
  const EtherealEnergyLimit: real := 0.2
  /** Fixed bpm tolerance of the fuzzy tier (strict). */
  const FuzzyBpmTolerance: real := 15.0

  function Abs(x: real): (a: real)
    ensures a >= 0.0 && (a == x || a == -x)
  {
    if x < 0.0 then -x else x
  }

  /** The three scanning tiers, in the order the classifier tries them. */
  datatype Tier = Exact | Fuzzy | BpmOnly

  /** Whether entry c accepts (bpm, energy) in the given tier. The exact and
      bpm-only tiers need bpm inside the entry's range; the fuzzy tier needs a
      threshold and (bpm, energy) strictly inside the open box around the
      entry's centre, 15 bpm and the threshold wide on each side. */
  predicate Hits(tier: Tier, c: MoodCategory, bpm: real, energy: real)
    ensures Hits(tier, c, bpm, energy) && tier != Fuzzy ==> c.bpmRange.lo <= bpm < c.bpmRange.hi
    ensures Hits(tier, c, bpm, energy) && tier == Fuzzy ==>
      c.fuzzyEnergyThresh.Some? &&
      c.bpmRange.Mid() - FuzzyBpmTolerance < bpm < c.bpmRange.Mid() + FuzzyBpmTolerance &&
      c.energyRange.Mid() - c.fuzzyEnergyThresh.value < energy < c.energyRange.Mid() + c.fuzzyEnergyThresh.value
  {
    match tier
    case Exact =>
      c.bpmRange.Contains(bpm) && c.energyRange.Contains(energy)
    case Fuzzy =>
      c.fuzzyEnergyThresh.Some? &&
      Abs(bpm - c.bpmRange.Mid()) < FuzzyBpmTolerance &&
      Abs(energy - c.energyRange.Mid()) < c.fuzzyEnergyThresh.value
    case BpmOnly =>
      c.bpmRange.Contains(bpm)
  }

  /** Index i is the first entry of cats that the tier accepts. */
  ghost predicate IsFirstHit(cats: seq<MoodCategory>, tier: Tier, bpm: real, energy: real, i: int) {
    0 <= i < |cats| && Hits(tier, cats[i], bpm, energy) &&
    forall j :: 0 <= j < i ==> !Hits(tier, cats[j], bpm, energy)
  }

  /** No entry of cats is accepted by the tier. */
  ghost predicate NoHit(cats: seq<MoodCategory>, tier: Tier, bpm: real, energy: real) {
    forall j :: 0 <= j < |cats| ==> !Hits(tier, cats[j], bpm, energy)
  }

  /** One scan of a tier over the catalog: the position of the first entry
      it accepts, or None when it accepts none. */
  function FirstHit(cats: seq<MoodCategory>, tier: Tier, bpm: real, energy: real): (r: Option<nat>)
    ensures r.Some? ==> IsFirstHit(cats, tier, bpm, energy, r.value)
    ensures r.None? <==> NoHit(cats, tier, bpm, energy)
  {
    if cats == [] then None
    else if Hits(tier, cats[0], bpm, energy) then Some(0)
    else match FirstHit(cats[1..], tier, bpm, energy)
      case None => None
      case Some(i) => Some(i + 1)
  }

  /** At most one index is the first hit of a tier. */
  lemma FirstHitUnique(cats: seq<MoodCategory>, tier: Tier, bpm: real, energy: real, i: int, k: int)
    requires IsFirstHit(cats, tier, bpm, energy, i)
    requires IsFirstHit(cats, tier, bpm, energy, k)
    ensures i == k
  {
  }

  /** The first hit of a tier, whenever some entry is accepted. */
  lemma FirstHitExists(cats: seq<MoodCategory>, tier: Tier, bpm: real, energy: real, j: int)
    requires 0 <= j < |cats| && Hits(tier, cats[j], bpm, energy)
    ensures FirstHit(cats, tier, bpm, energy).Some?
    ensures FirstHit(cats, tier, bpm, energy).value <= j
  {
    assert !NoHit(cats, tier, bpm, energy);
  }

  /** The label one scanning tier gives, if any. */
  function TierLabel(cats: seq<MoodCategory>, tier: Tier, bpm: real, energy: real): (r: Option<string>) {
    match FirstHit(cats, tier, bpm, energy)
    case None => None
    case Some(i) => Some(cats[i].name)
  }

  /** The classifier over an arbitrary catalog. Its contract is the tier
      policy stated declaratively: each clause says when a tier decides and
      which entry wins, with catalog order as the only tie-break. */
  function ClassifyWith(cats: seq<MoodCategory>, bpm: real, energy: real): (mood: string)
    // tier 1: very low energy
    ensures energy < LowEnergyLimit ==> mood == Suppressed
    // tier 2: very low tempo, no scan consulted
    ensures energy >= LowEnergyLimit && bpm < LowTempoLimit ==>
      mood == (if energy < EtherealEnergyLimit then Ethereal else Melancholic)
    // tier 3: the first exact 2-D match wins
    ensures energy >= LowEnergyLimit && bpm >= LowTempoLimit ==>
      forall i :: IsFirstHit(cats, Exact, bpm, energy, i) ==> mood == cats[i].name
    // tier 4: only without an exact match, the first fuzzy match wins
    ensures energy >= LowEnergyLimit && bpm >= LowTempoLimit && NoHit(cats, Exact, bpm, energy) ==>
      forall i :: IsFirstHit(cats, Fuzzy, bpm, energy, i) ==> mood == cats[i].name
    // tier 5: only without exact or fuzzy matches, the first bpm match wins
    ensures energy >= LowEnergyLimit && bpm >= LowTempoLimit &&
            NoHit(cats, Exact, bpm, energy) && NoHit(cats, Fuzzy, bpm, energy) ==>
      forall i :: IsFirstHit(cats, BpmOnly, bpm, energy, i) ==> mood == cats[i].name
    // tier 6: nothing matched
    ensures energy >= LowEnergyLimit && bpm >= LowTempoLimit &&
            NoHit(cats, Exact, bpm, energy) && NoHit(cats, Fuzzy, bpm, energy) &&
            NoHit(cats, BpmOnly, bpm, energy) ==>
      mood == DefaultMood
  {
    if energy < LowEnergyLimit then Suppressed
    else if bpm < LowTempoLimit then (if energy < EtherealEnergyLimit then Ethereal else Melancholic)
    else
      var exact := TierLabel(cats, Exact, bpm, energy);
      if exact.Some? then exact.value
      else
        var fuzzy := TierLabel(cats, Fuzzy, bpm, energy);
        if fuzzy.Some? then fuzzy.value
        else
          var byBpm := TierLabel(cats, BpmOnly, bpm, energy);
          if byBpm.Some? then byBpm.value
          else DefaultMood
  }

  /** classify_mood: the engine over the fixed catalog. Its label is always
      one of the twelve catalog names or the default. */
  function ClassifyMood(bpm: real, energy: real): (mood: string)
    ensures mood in Names(MoodCategories) + [DefaultMood]
  {
    CatalogWellFormed();
    ClassifyWithRange(MoodCategories, bpm, energy);
    ClassifyWith(MoodCategories, bpm, energy)
  }

  /** The label is always an override label, a catalog name or the default. */
  lemma ClassifyWithRange(cats: seq<MoodCategory>, bpm: real, energy: real)
    ensures var mood := ClassifyWith(cats, bpm, energy);
      mood in {Suppressed, Ethereal, Melancholic, DefaultMood} || mood in Names(cats)
  {
    var exact := FirstHit(cats, Exact, bpm, energy);
    var fuzzy := FirstHit(cats, Fuzzy, bpm, energy);
    var byBpm := FirstHit(cats, BpmOnly, bpm, energy);
    if energy < LowEnergyLimit || bpm < LowTempoLimit {
    } else if exact.Some? {
      assert Names(cats)[exact.value] == cats[exact.value].name;
    } else if fuzzy.Some? {
      assert Names(cats)[fuzzy.value] == cats[fuzzy.value].name;
    } else if byBpm.Some? {
      assert Names(cats)[byBpm.value] == cats[byBpm.value].name;
    }
  }

  /** With overlapping entries, the one earlier in the catalog wins the exact
      tier: a later overlapping entry's name is never the result. */
  lemma EarlierEntryWinsOverlap(cats: seq<MoodCategory>, bpm: real, energy: real, i: int, j: int)
    requires WellFormedCatalog(cats)
    requires 0 <= i < j < |cats|
    requires Hits(Exact, cats[i], bpm, energy) && Hits(Exact, cats[j], bpm, energy)
    requires energy >= LowEnergyLimit && bpm >= LowTempoLimit
    ensures ClassifyWith(cats, bpm, energy) != cats[j].name
  {
    FirstHitExists(cats, Exact, bpm, energy, i);
    var k := FirstHit(cats, Exact, bpm, energy).value;
    assert ClassifyWith(cats, bpm, energy) == cats[k].name;
  }

  /** A scan of one tier, written as the source's early-returning for loop. */
  method ScanTier(cats: seq<MoodCategory>, tier: Tier, bpm: real, energy: real) returns (found: Option<nat>)
    ensures found.Some? ==> IsFirstHit(cats, tier, bpm, energy, found.value)
    ensures found.None? ==> NoHit(cats, tier, bpm, energy)
    ensures found == FirstHit(cats, tier, bpm, energy)
  {
    var i := 0;
    while i < |cats|
      invariant 0 <= i <= |cats|
      invariant forall j :: 0 <= j < i ==> !Hits(tier, cats[j], bpm, energy)
    {
      if Hits(tier, cats[i], bpm, energy) {
        found := Some(i);
        FirstHitUnique(cats, tier, bpm, energy, i, FirstHit(cats, tier, bpm, energy).value);
        return;
      }
      i := i + 1;
    }
    found := None;
  }

  /** classify_mood as the source runs it: two guard returns, then three
      scans of the catalog, then the default. */
  method ClassifyMoodScan(cats: seq<MoodCategory>, bpm: real, energy: real) returns (mood: string)
    ensures mood == ClassifyWith(cats, bpm, energy)
  {
    if energy < LowEnergyLimit {
      return Suppressed;
    }
    if bpm < LowTempoLimit {
      return if energy < EtherealEnergyLimit then Ethereal else Melancholic;
    }
    var exact := ScanTier(cats, Exact, bpm, energy);
    if exact.Some? {
      return cats[exact.value].name;
    }
    var fuzzy := ScanTier(cats, Fuzzy, bpm, energy);
    if fuzzy.Some? {
      return cats[fuzzy.value].name;
    }
    var byBpm := ScanTier(cats, BpmOnly, bpm, energy);
    if byBpm.Some? {
      return cats[byBpm.value].name;
    }
    return DefaultMood;
  }
}
