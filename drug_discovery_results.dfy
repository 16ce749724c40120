/**
 * The rendering decisions of src/components/DrugDiscoveryResults.tsx: which alert, badges, sections
 * and cards a `DrugDiscoveryResult` produces, and the summary counts. The JSX itself is reduced to
 * a view datatype holding what is shown.
 */
module DrugDiscoveryResults {
  import opened Js
  import opened Rdkit
  import opened DrugDiscovery

  datatype BadgeVariant = Default | Destructive

  /** The "Molecular Properties" section of a compound card. */
  datatype PropertiesView = PropertiesView(
    molWt: real, logP: real, tpsa: real, hbd: JsNumber, hba: JsNumber,
    lipinskiVariant: BadgeVariant, lipinskiViolations: int, leadLikeBadge: bool)

  /** A compound card: the id badge, the SMILES section, the bioactivity line and the properties. */
  datatype CompoundView = CompoundView(
    idBadge: string,
    smilesSection: Option<string>,
    activityType: string,
    activityValueShown: bool,
    properties: Option<PropertiesView>)

  /** The hit area of a target card: up to six compound cards, or the placeholder. */
  datatype HitsView = CompoundCards(cards: seq<CompoundView>) | NoHitCompounds

  /** A target card. */
  datatype TargetView = TargetView(
    symbol: string,
    scoreBadge: Option<JsNumber>,
    ensembl: string,
    chemblLabel: string,
    scoreBar: bool,
    hitCount: int,
    chemblErrorAlert: Option<string>,
    hits: HitsView)

  /** The whole component: the failure alert, or the summary and one card per target. */
  datatype ResultsView =
    | FailureAlert(message: string)
    | DiscoveryComplete(diseaseName: Option<string>, targetCount: int, hitTotal: int, chemblMatches: int,
                        cards: seq<TargetView>)

  /** The most compound cards a target card shows. */
  const MaxCompoundCards: nat := 6

  /** A bioactivity value is shown when it is truthy. */
  predicate TruthyValue(v: Option<StringOrNumber>) {
    match v
    case None => false
    case Some(Text(s)) => s != ""
    case Some(Number(n)) => TruthyNumber(Some(n))
  }

  /** `violations <= 1 ? "default" : "destructive"`. */
  function LipinskiVariant(violations: int): (v: BadgeVariant)
  {
    if violations <= 1 then Default else Destructive
  }

  /** `a || fallback` for a possibly absent string. */
  function OrText(s: Option<string>, fallback: string): (r: string)
    ensures TruthyString(s) ==> r == s.value
    ensures !TruthyString(s) ==> r == fallback
  {
    if TruthyString(s) then s.value else fallback
  }

  /** `CompoundCard` (lines 30-89). */
  function CompoundCard(c: HitCompound): CompoundView {
    CompoundView(
      OrText(c.moleculeChemblId, "Unknown ID"),
      if TruthyString(c.smiles) then c.smiles else None,
      OrText(c.bioactivity.kind, "Unknown"),
      TruthyValue(c.bioactivity.value),
      if c.analysis.Some? && !TruthyString(c.analysis.value.error) then
        var a := c.analysis.value;
        Some(PropertiesView(a.molWt, a.logP, a.tpsa, a.hbd, a.hba,
                            LipinskiVariant(a.lipinskiViolations), a.lipinskiViolations, a.leadLike))
      else None)
  }

  /** `TargetCard` (lines 90-161). */
  function TargetCard(t: TargetResult): TargetView {
    TargetView(
      t.symbol,
      if TruthyNumber(t.score) then t.score else None,
      t.ensembl,
      OrText(t.chemblTargetId, "Not found"),
      TruthyNumber(t.score),
      |t.hits|,
      if TruthyString(t.chemblError) then t.chemblError else None,
      if |t.hits| > 0 then CompoundCards(CardsOf(Take(t.hits, MaxCompoundCards))) else NoHitCompounds)
  }

  function CardsOf(hits: seq<HitCompound>): (cards: seq<CompoundView>)
  {
    seq(|hits|, i requires 0 <= i < |hits| => CompoundCard(hits[i]))
  }

  /** `targets.reduce((sum, target) => sum + target.hits.length, 0)`. */
  function HitTotal(targets: seq<TargetResult>): (n: int)
    ensures n >= 0
    ensures forall i :: 0 <= i < |targets| ==> |targets[i].hits| <= n
  {
    if targets == [] then 0 else |targets[0].hits| + HitTotal(targets[1..])
  }

  /** Every hit of every target, target after target. */
  function AllHits(targets: seq<TargetResult>): seq<HitCompound> {
    if targets == [] then [] else targets[0].hits + AllHits(targets[1..])
  }

  /** The Hit Compounds total counts every hit of every target once. */
  lemma {:induction false} HitTotalCountsAllHits(targets: seq<TargetResult>)
    ensures HitTotal(targets) == |AllHits(targets)|
  {
    if targets != [] {
      HitTotalCountsAllHits(targets[1..]);
    }
  }

  /** `targets.filter(t => t.chembl_target_id).length`. */
  function ChemblMatches(targets: seq<TargetResult>): (n: int)
    ensures 0 <= n <= |targets|
    ensures n == |targets| <==> forall i :: 0 <= i < |targets| ==> TruthyString(targets[i].chemblTargetId)
  {
    if targets == [] then 0
    else (if TruthyString(targets[0].chemblTargetId) then 1 else 0) + ChemblMatches(targets[1..])
  }

  /** The filter's test: the target carries a ChEMBL id. */
  predicate HasChemblId(t: TargetResult) {
    TruthyString(t.chemblTargetId)
  }

  /** The ChEMBL match count is the number of targets the filter keeps. */
  lemma {:induction false} ChemblMatchesCountsIds(targets: seq<TargetResult>)
    ensures ChemblMatches(targets) == |Filter(targets, HasChemblId)|
  {
    if targets != [] {
      ChemblMatchesCountsIds(targets[1..]);
    }
  }

  /** Counting over two lists of targets adds up; a single target counts 1 exactly when it has an id. */
  lemma {:induction false} ChemblMatchesAppend(a: seq<TargetResult>, b: seq<TargetResult>)
    ensures ChemblMatches(a + b) == ChemblMatches(a) + ChemblMatches(b)
    ensures forall t :: ChemblMatches([t]) == if HasChemblId(t) then 1 else 0
  {
    ChemblMatchesCountsIds(a + b);
    ChemblMatchesCountsIds(a);
    ChemblMatchesCountsIds(b);
    FilterAppend(a, b, HasChemblId);
    forall t ensures ChemblMatches([t]) == if HasChemblId(t) then 1 else 0 {
      assert [t][1..] == [];
    }
  }

  /** `DrugDiscoveryResults` (lines 162-216). */
  function Results(r: DrugDiscoveryResult): ResultsView {
    if TruthyString(r.error) then FailureAlert(r.error.value)
    else DiscoveryComplete(r.diseaseName, |r.targets|, HitTotal(r.targets), ChemblMatches(r.targets),
                           seq(|r.targets|, i requires 0 <= i < |r.targets| => TargetCard(r.targets[i])))
  }

  // ---------------------------------------------------------------------------------------------
  // Properties of the view

  /**
   * An error result renders only the failure alert with its text; any other result renders one
   * card per target, a ChEMBL match count no larger than the target count, and the hit total.
   */
  lemma {:induction false} ResultsShape(r: DrugDiscoveryResult)
    ensures TruthyString(r.error) ==> Results(r) == FailureAlert(r.error.value)
    ensures !TruthyString(r.error) ==>
      var v := Results(r);
      && v.DiscoveryComplete? && v.targetCount == |r.targets| && |v.cards| == |r.targets|
      && v.chemblMatches <= v.targetCount
      && v.hitTotal == |AllHits(r.targets)|
      && forall i :: 0 <= i < |r.targets| ==> v.cards[i] == TargetCard(r.targets[i])
  {
    HitTotalCountsAllHits(r.targets);
  }

  /**
   * A target card shows the first six hits in order, or the placeholder when there are none; the
   * score badge and bar appear only for a truthy score (so not for 0); the ChEMBL error alert
   * appears exactly when `chembl_error` is truthy; a missing ChEMBL id reads 'Not found'.
   */
  lemma {:induction false} TargetCardShape(t: TargetResult)
    ensures TargetCard(t).hits.NoHitCompounds? <==> t.hits == []
    ensures t.hits != [] ==>
      var cards := TargetCard(t).hits.cards;
      && |cards| == (if |t.hits| < MaxCompoundCards then |t.hits| else MaxCompoundCards)
      && forall i :: 0 <= i < |cards| ==> cards[i] == CompoundCard(t.hits[i])
    ensures TargetCard(t).hitCount == |t.hits|
    ensures TargetCard(t).scoreBar <==> TruthyNumber(t.score)
    ensures TargetCard(t).scoreBadge.Some? <==> TruthyNumber(t.score)
    ensures t.score == Some(Finite(0.0)) ==> !TargetCard(t).scoreBar && TargetCard(t).scoreBadge.None?
    ensures TargetCard(t).chemblErrorAlert.Some? <==> TruthyString(t.chemblError)
    ensures !TruthyString(t.chemblTargetId) ==> TargetCard(t).chemblLabel == "Not found"
  {
  }

  /**
   * The properties section appears exactly for an analysis without a truthy error, and its
   * Lipinski badge is 'default' iff there is at most one violation.
   */
  lemma {:induction false} CompoundCardShape(c: HitCompound)
    ensures CompoundCard(c).properties.Some? <==> c.analysis.Some? && !TruthyString(c.analysis.value.error)
    ensures CompoundCard(c).properties.Some? ==>
      (CompoundCard(c).properties.value.lipinskiVariant == Default <==> c.analysis.value.lipinskiViolations <= 1)
    ensures CompoundCard(c).properties.Some? ==>
      (CompoundCard(c).properties.value.leadLikeBadge <==> c.analysis.value.leadLike)
    ensures CompoundCard(c).smilesSection.Some? <==> TruthyString(c.smiles)
  {
  }

  /**
   * For a pipeline result that completed, no card shows a ChEMBL error, and every target with hits
   * has a ChEMBL id, so the targets with hits are no more than the ChEMBL matches.
   */
  lemma {:induction false} CompletedRunView(gw: Gateways, before: InitPromise, rdkit: Option<Backend>,
                                            diseaseName: string, targetsToFetch: int, hitsPerTarget: int)
    requires rdkit.Some? <==> before == Fulfilled
    ensures var r := PipelineOf(gw, before, rdkit, diseaseName, targetsToFetch, hitsPerTarget);
      && (forall i :: 0 <= i < |r.targets| ==> TargetCard(r.targets[i]).chemblErrorAlert.None?)
      && WithHits(r.targets) <= ChemblMatches(r.targets)
  {
    var r := PipelineOf(gw, before, rdkit, diseaseName, targetsToFetch, hitsPerTarget);
    forall i | 0 <= i < |r.targets|
      ensures r.targets[i].chemblError.None? && (r.targets[i].hits != [] ==> TruthyString(r.targets[i].chemblTargetId))
    {
    }
    WithHitsAreMatches(r.targets);
  }

  /** The number of targets with at least one hit. */
  function WithHits(targets: seq<TargetResult>): (n: int)
    ensures 0 <= n <= |targets|
  {
    if targets == [] then 0 else (if targets[0].hits != [] then 1 else 0) + WithHits(targets[1..])
  }

  lemma {:induction false} WithHitsAreMatches(targets: seq<TargetResult>)
    requires forall i :: 0 <= i < |targets| ==> targets[i].hits != [] ==> TruthyString(targets[i].chemblTargetId)
    ensures WithHits(targets) <= ChemblMatches(targets)
  {
    if targets != [] {
      WithHitsAreMatches(targets[1..]);
    }
  }
}
