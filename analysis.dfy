/**
 * The geological analysis built from the potential scores and the mineral
 * indices (backend/analysis.py): peak and mean statistics, tiered
 * assessments, mineral signature statuses and fixed recommendations.
 */
module Analysis {
  import opened Reals

  /** The assessment tiers, from lowest to highest. */
  datatype Assessment = LowPotential | ModeratePotential | ModerateHighPotential | HighPotential
  {
    function Label(): string
    {
      match this
      case LowPotential => "LOW POTENTIAL"
      case ModeratePotential => "MODERATE POTENTIAL"
      case ModerateHighPotential => "MODERATE-HIGH POTENTIAL"
      case HighPotential => "HIGH POTENTIAL"
    }

    function Rank(): nat
    {
      match this
      case LowPotential => 0
      case ModeratePotential => 1
      case ModerateHighPotential => 2
      case HighPotential => 3
    }
  }

  datatype Status = Strong | Moderate
  {
    function Label(): string
    {
      if Strong? then "STRONG" else "MODERATE"
    }
  }

  /** Copper peak score thresholds, in percent. */
  const CopperHigh: real := 85.0
  const CopperModerate: real := 70.0
  /** Gold peak score thresholds, in percent. */
  const GoldHigh: real := 80.0
  const GoldModerateHigh: real := 65.0
  /** Index maxima above which a mineral signature is strong. */
  const KfeldsparStrong: real := 2.5
  const ClayStrong: real := 1.8
  const IronOxideStrong: real := 0.6
  const SilicaStrong: real := 1.0

  /** Copper tier of a peak score: high above 85, moderate above 70, low otherwise. */
  function CopperAssessment(peak: real): (a: Assessment)
    ensures a == HighPotential <==> peak > CopperHigh
    ensures a == ModeratePotential <==> CopperModerate < peak <= CopperHigh
    ensures a == LowPotential <==> peak <= CopperModerate
  {
    if peak > CopperHigh then HighPotential
    else if peak > CopperModerate then ModeratePotential
    else LowPotential
  }

  /** Gold tier of a peak score: high above 80, moderate-high above 65, moderate otherwise. */
  function GoldAssessment(peak: real): (a: Assessment)
    ensures a == HighPotential <==> peak > GoldHigh
    ensures a == ModerateHighPotential <==> GoldModerateHigh < peak <= GoldHigh
    ensures a == ModeratePotential <==> peak <= GoldModerateHigh
  {
    if peak > GoldHigh then HighPotential
    else if peak > GoldModerateHigh then ModerateHighPotential
    else ModeratePotential
  }

  /** The distinct tiers carry distinct labels, so a label determines its tier. */
  lemma LabelsDistinct(a: Assessment, b: Assessment)
    requires a.Label() == b.Label()
    ensures a == b
  {
    match a
    case LowPotential =>
      assert a.Label()[0] == 'L';
    case ModeratePotential =>
      assert a.Label()[8] == ' ';
    case ModerateHighPotential =>
      assert a.Label()[8] == '-';
    case HighPotential =>
      assert a.Label()[0] == 'H';
  }

  /** Raising the copper peak never lowers its tier. */
  lemma CopperAssessmentMonotone(p: real, q: real)
    requires p <= q
    ensures CopperAssessment(p).Rank() <= CopperAssessment(q).Rank()
  {
  }

  /** Raising the gold peak never lowers its tier. */
  lemma GoldAssessmentMonotone(p: real, q: real)
    requires p <= q
    ensures GoldAssessment(p).Rank() <= GoldAssessment(q).Rank()
  {
  }

  /** A mineral signature is strong exactly when its index maximum exceeds its threshold. */
  function SignatureStatus(peak: real, threshold: real): (s: Status)
    ensures s == Strong <==> peak > threshold
  {
    if peak > threshold then Strong else Moderate
  }

  datatype CopperSummary = CopperSummary(
    mean: real, max: real, assessment: Assessment, depthM: string, system: string, hostRock: string)

  datatype GoldSummary = GoldSummary(
    mean: real, max: real, assessment: Assessment, depthM: string, system: string, environment: string)

  datatype MineralSummary = MineralSummary(mean: real, max: real, status: Status, interpretation: string)

  datatype Minerals = Minerals(
    kfeldspar: MineralSummary, clay: MineralSummary, ironOxide: MineralSummary, silica: MineralSummary)

  datatype RiskAssessment = RiskAssessment(
    signalConvergence: string, systemType: string, similarDeposits: string, overallRisk: string)

  datatype Recommendations = Recommendations(
    immediate: seq<string>, shortTerm: seq<string>, mediumTerm: seq<string>, action: string)

  datatype GeologicalAnalysis = GeologicalAnalysis(
    copper: CopperSummary,
    gold: GoldSummary,
    minerals: Minerals,
    risk: RiskAssessment,
    recommendations: Recommendations)

  /** Summary of one index array: mean, maximum, and the status of that maximum. */
  function SummariseIndex(index: seq<real>, threshold: real, interpretation: string): (m: MineralSummary)
    requires |index| > 0
    ensures m.max in index && forall i :: 0 <= i < |index| ==> index[i] <= m.max
    ensures m.mean == Mean(index) && m.mean <= m.max
    ensures m.status == Strong <==> m.max > threshold
    ensures m.interpretation == interpretation
  {
    MeanAtMostMax(index);
    var peak := Max(index);
    MineralSummary(Mean(index), peak, SignatureStatus(peak, threshold), interpretation)
  }

  /** The fixed interpretation attached to each mineral signature. */
  const KfeldsparNote: string := "Potassic core of porphyry system \U{2192} Copper mineralization"
  const ClayNote: string := "Phyllosilicate-rich zones \U{2192} Epithermal and distal porphyry"
  const IronOxideNote: string := "Hematite/limonite \U{2192} Near-surface oxidation and weathering"
  const SilicaNote: string := "Silica-rich cap \U{2192} Shallow epithermal environment"

  /** The fixed deposit-model descriptions of the copper and gold summaries. */
  const CopperSystem: string := "Porphyry Copper"
  const CopperHostRock: string := "Granite (Precambrian intrusive)"
  const GoldSystem: string := "Epithermal Gold"
  const GoldEnvironment: string := "Silica-cap epithermal"

  /** The fixed risk assessment. */
  const Risk: RiskAssessment := RiskAssessment(
    "Multiple alteration signals converge on same area",
    "Classic porphyry system (PROVEN)",
    "Similar to existing Carlin deposits (KNOWN)",
    "LOW")

  /** The fixed recommendations. */
  const Recommended: Recommendations := Recommendations(
    ["Ground reconnaissance in AOI",
     "Rock sample collection for geochemistry",
     "Ground geophysical surveys (magnetic, gravity)"],
    ["Scout drilling program (0-3 months)",
     "Target: potassic-altered granite contact",
     "Depth: 300-500m initial holes"],
    ["Core logging and assay (3-12 months)",
     "Update 3D geological model",
     "Define mineralized resource boundaries"],
    "PROCEED WITH DRILLING")

  /**
   * `generate_geological_analysis`. The maximum of an empty array raises
   * an error, which is `None` here; otherwise every statistic is the
   * array's own mean and maximum, the tiers follow the fixed ladders and
   * the descriptive fields are constant.
   */
  function GenerateGeologicalAnalysis(copperScore: seq<real>, goldScore: seq<real>,
                                      kfeldspar: seq<real>, clay: seq<real>,
                                      ironOxide: seq<real>, silica: seq<real>): (r: Option<GeologicalAnalysis>)
    ensures r.None? <==>
              |copperScore| == 0 || |goldScore| == 0 || |kfeldspar| == 0 ||
              |clay| == 0 || |ironOxide| == 0 || |silica| == 0
    ensures r.Some? ==>
              var a := r.value;
              && a.copper.max in copperScore
              && (forall i :: 0 <= i < |copperScore| ==> copperScore[i] <= a.copper.max)
              && a.copper.mean == Mean(copperScore) && a.copper.mean <= a.copper.max
              && a.copper.assessment == CopperAssessment(a.copper.max)
              && a.copper.depthM == "250-750"
              && a.gold.max in goldScore
              && (forall i :: 0 <= i < |goldScore| ==> goldScore[i] <= a.gold.max)
              && a.gold.mean == Mean(goldScore) && a.gold.mean <= a.gold.max
              && a.gold.assessment == GoldAssessment(a.gold.max)
              && a.gold.depthM == "100-300"
              && a.minerals.kfeldspar == SummariseIndex(kfeldspar, KfeldsparStrong, KfeldsparNote)
              && a.minerals.clay == SummariseIndex(clay, ClayStrong, ClayNote)
              && a.minerals.ironOxide == SummariseIndex(ironOxide, IronOxideStrong, IronOxideNote)
              && a.minerals.silica == SummariseIndex(silica, SilicaStrong, SilicaNote)
              && (a.minerals.kfeldspar.status == Strong <==> Max(kfeldspar) > KfeldsparStrong)
              && (a.minerals.clay.status == Strong <==> Max(clay) > ClayStrong)
              && (a.minerals.ironOxide.status == Strong <==> Max(ironOxide) > IronOxideStrong)
              && (a.minerals.silica.status == Strong <==> Max(silica) > SilicaStrong)
              && a.recommendations.action == "PROCEED WITH DRILLING"
  {
    if |copperScore| == 0 || |goldScore| == 0 || |kfeldspar| == 0 ||
       |clay| == 0 || |ironOxide| == 0 || |silica| == 0
    then None
    else
      MeanAtMostMax(copperScore);
      MeanAtMostMax(goldScore);
      var copperMax := Max(copperScore);
      var goldMax := Max(goldScore);
      Some(GeologicalAnalysis(
        CopperSummary(Mean(copperScore), copperMax, CopperAssessment(copperMax),
                      "250-750", CopperSystem, CopperHostRock),
        GoldSummary(Mean(goldScore), goldMax, GoldAssessment(goldMax),
                    "100-300", GoldSystem, GoldEnvironment),
        Minerals(
          SummariseIndex(kfeldspar, KfeldsparStrong,
                         KfeldsparNote),
          SummariseIndex(clay, ClayStrong,
                         ClayNote),
          SummariseIndex(ironOxide, IronOxideStrong,
                         IronOxideNote),
          SummariseIndex(silica, SilicaStrong,
                         SilicaNote)),
        Risk,
        Recommended))
  }

  /** With potentials in [0, 100], the reported means and peaks are percentages too. */
  lemma {:induction false} StatisticsArePercentages(copperScore: seq<real>, goldScore: seq<real>,
                                                     kfeldspar: seq<real>, clay: seq<real>,
                                                     ironOxide: seq<real>, silica: seq<real>)
    requires |copperScore| > 0 && |goldScore| > 0 && |kfeldspar| > 0
    requires |clay| > 0 && |ironOxide| > 0 && |silica| > 0
    requires forall i :: 0 <= i < |copperScore| ==> 0.0 <= copperScore[i] <= 100.0
    requires forall i :: 0 <= i < |goldScore| ==> 0.0 <= goldScore[i] <= 100.0
    ensures var a := GenerateGeologicalAnalysis(copperScore, goldScore, kfeldspar, clay, ironOxide, silica).value;
            && 0.0 <= a.copper.mean <= a.copper.max <= 100.0
            && 0.0 <= a.gold.mean <= a.gold.max <= 100.0
  {
    MeanWithin(copperScore, 0.0, 100.0);
    MeanWithin(goldScore, 0.0, 100.0);
  }
}
