/**
 * The discovery pipeline of src/lib/drugDiscovery.ts: resolve a disease name to an EFO id, fetch the
 * associated targets, map every target to a ChEMBL target id, fetch that target's hit compounds and
 * attach a descriptor analysis to every hit that has a SMILES string.
 *
 * The four HTTP gateways are oracles (`Gateways`) that answer with a decoded JSON body or a failure
 * (a network error, a non-OK status or a body that is not JSON); the functions below shape those
 * answers as the gateway functions do.
 */
module DrugDiscovery {
  import opened Js
  import opened Rdkit

  /** What a gateway's `fetch` + `response.json()` produced, or what it threw. */
  datatype Transport<+T> = Response(body: T) | Failed(error: Thrown)

  /** An associated target (`Target`). */
  datatype Target = Target(ensembl: string, symbol: string, score: Option<JsNumber>)

  /** `string | number`, the type of an activity's standard value. */
  datatype StringOrNumber = Text(text: string) | Number(n: JsNumber)

  /** `BioActivity`: the activity's standard type, value and units. */
  datatype BioActivity = BioActivity(kind: Option<string>, value: Option<StringOrNumber>, units: Option<string>)

  /** `HitCompound`. */
  datatype HitCompound = HitCompound(
    moleculeChemblId: Option<string>,
    smiles: Option<string>,
    bioactivity: BioActivity,
    analysis: Option<CompoundAnalysis>)

  /** `TargetResult`; `chemblTargetId` is None both before line 206 assigns it and when it is null. */
  datatype TargetResult = TargetResult(
    symbol: string,
    ensembl: string,
    score: Option<JsNumber>,
    chemblTargetId: Option<string>,
    hits: seq<HitCompound>,
    chemblError: Option<string>)

  /** `DrugDiscoveryResult`. */
  datatype DrugDiscoveryResult = DrugDiscoveryResult(
    efoId: Option<string>,
    diseaseName: Option<string>,
    targets: seq<TargetResult>,
    error: Option<string>)

  // ---------------------------------------------------------------------------------------------
  // Gateway bodies and their shaping

  /** One row of `associatedTargets.rows`: the target's id and approved symbol, and the score. */
  datatype AssociationRow = AssociationRow(targetId: string, approvedSymbol: string, score: Option<JsNumber>)

  /** `data.data.disease` of the Open Targets association query. */
  datatype DiseaseData = DiseaseData(name: string, rows: seq<AssociationRow>)

  /** What `getAssociatedTargets` returns when the disease exists. */
  datatype Association = Association(disease: string, targets: seq<Target>)

  /** An element of `data.targets` of the ChEMBL target search. */
  datatype ChemblTarget = ChemblTarget(targetChemblId: Option<string>)

  /** An element of `data.activities` of the ChEMBL activity query. */
  datatype Activity = Activity(
    moleculeChemblId: Option<string>,
    canonicalSmiles: Option<string>,
    standardType: Option<string>,
    standardValue: Option<StringOrNumber>,
    standardUnits: Option<string>)

  /**
   * The remote services the pipeline calls, and how the one RDKit load settles. A None body is an
   * absent field (`data?.data?.search?.hits`, `data?.data?.disease`, `data.targets`, `data.activities`).
   */
  datatype Gateways = Gateways(
    searchDisease: string -> Transport<Option<seq<string>>>,
    diseaseTargets: (string, int) -> Transport<Option<DiseaseData>>,
    searchChemblTarget: string -> Transport<Option<seq<ChemblTarget>>>,
    activities: (string, int) -> Transport<Option<seq<Activity>>>,
    rdkitLoad: LoadAnswer)

  /** `getEfoIdViaGraphQL`: the first search hit's id; null when there is no hit or on any error. */
  function EfoIdOf(t: Transport<Option<seq<string>>>): (id: Option<string>)
    ensures t.Failed? ==> id.None?
    ensures id.Some? <==> t.Response? && t.body.Some? && t.body.value != []
    ensures id.Some? ==> id.value == t.body.value[0]
  {
    match t
    case Failed(_) => None
    case Response(hits) =>
      var hs := if hits.Some? then hits.value else [];
      if |hs| > 0 then Some(hs[0]) else None
  }

  /** The mapping of line 107-111: one target per row, in order. */
  function TargetsOf(rows: seq<AssociationRow>): (ts: seq<Target>)
  {
    seq(|rows|, i requires 0 <= i < |rows| => Target(rows[i].targetId, rows[i].approvedSymbol, rows[i].score))
  }

  /** `getAssociatedTargets`: null when the disease is missing, the mapped rows otherwise; errors are rethrown. */
  function AssociatedTargetsOf(t: Transport<Option<DiseaseData>>): (r: Result<Option<Association>>)
  {
    match t
    case Failed(e) => Throw(e)
    case Response(None) => Ok(None)
    case Response(Some(d)) => Ok(Some(Association(d.name, TargetsOf(d.rows))))
  }

  /**
   * The association result is null exactly when the disease is absent and a throw exactly when the
   * transport failed; otherwise it has one target per row, in order, with id, symbol and score copied.
   */
  lemma {:induction false} AssociatedTargetsShape(t: Transport<Option<DiseaseData>>)
    ensures AssociatedTargetsOf(t).Throw? <==> t.Failed?
    ensures t.Failed? ==> AssociatedTargetsOf(t) == Throw(t.error)
    ensures AssociatedTargetsOf(t) == Ok(None) <==> t == Response(None)
    ensures t.Response? && t.body.Some? ==>
      var a := AssociatedTargetsOf(t).value.value;
      var rows := t.body.value.rows;
      && a.disease == t.body.value.name
      && |a.targets| == |rows|
      && forall i :: 0 <= i < |rows| ==>
           a.targets[i].ensembl == rows[i].targetId && a.targets[i].symbol == rows[i].approvedSymbol
           && a.targets[i].score == rows[i].score
  {
  }

  /** The first ChEMBL target with a truthy `target_chembl_id`, or null. */
  function FirstChemblId(hits: seq<ChemblTarget>): (id: Option<string>)
    ensures id.None? <==> forall i :: 0 <= i < |hits| ==> !TruthyString(hits[i].targetChemblId)
    ensures id.Some? ==> TruthyString(id)
  {
    if hits == [] then None
    else if TruthyString(hits[0].targetChemblId) then hits[0].targetChemblId
    else FirstChemblId(hits[1..])
  }

  /** `FirstChemblId` is the id of the first hit whose id is truthy. */
  lemma {:induction false} FirstChemblIdAt(hits: seq<ChemblTarget>, i: nat)
    requires i < |hits| && TruthyString(hits[i].targetChemblId)
    requires forall j :: 0 <= j < i ==> !TruthyString(hits[j].targetChemblId)
    ensures FirstChemblId(hits) == hits[i].targetChemblId
  {
    if i > 0 {
      FirstChemblIdAt(hits[1..], i - 1);
    }
  }

  /** What `getChemblTargetId` returns: null on any error, else the first truthy id, else null. */
  function ChemblIdOf(t: Transport<Option<seq<ChemblTarget>>>): Option<string> {
    match t
    case Failed(_) => None
    case Response(hits) => if hits.Some? then FirstChemblId(hits.value) else None
  }

  /** `getChemblTargetId`: the early-return loop of lines 126-129 and the fallback of line 130. */
  method GetChemblTargetId(t: Transport<Option<seq<ChemblTarget>>>) returns (id: Option<string>)
    ensures id == ChemblIdOf(t)
    ensures t.Failed? ==> id.None?
    ensures id.None? || TruthyString(id)
  {
    if t.Failed? {
      return None;
    }
    var hits := if t.body.Some? then t.body.value else [];
    if |hits| == 0 {
      return None;
    }
    for i := 0 to |hits|
      invariant forall j :: 0 <= j < i ==> !TruthyString(hits[j].targetChemblId)
    {
      var chemblId := hits[i].targetChemblId;
      if TruthyString(chemblId) {
        FirstChemblIdAt(hits, i);
        return chemblId;
      }
    }
    // `hits[0]?.target_chembl_id || null`: no id was truthy, so this is null.
    var first := hits[0].targetChemblId;
    id := if TruthyString(first) then first else None;
  }

  /** The activity mapping of lines 150-158; no hit has an analysis yet. */
  function HitOf(act: Activity): HitCompound {
    HitCompound(act.moleculeChemblId, act.canonicalSmiles,
                BioActivity(act.standardType, act.standardValue, act.standardUnits), None)
  }

  /** `getHitCompoundsForChemblTarget`: one hit per activity, in order; [] on any error. */
  function HitsOf(t: Transport<Option<seq<Activity>>>): (hits: seq<HitCompound>)
  {
    match t
    case Failed(_) => []
    case Response(acts) =>
      var as_ := if acts.Some? then acts.value else [];
      seq(|as_|, i requires 0 <= i < |as_| => HitOf(as_[i]))
  }

  /**
   * The activity fetch maps each activity to a hit with the same molecule id, SMILES, standard
   * type, value and units, in the order received, and yields [] on a failure or an absent list.
   */
  lemma {:induction false} HitsShape(t: Transport<Option<seq<Activity>>>)
    ensures t.Failed? || t.body.None? ==> HitsOf(t) == []
    ensures t.Response? && t.body.Some? ==>
      var acts := t.body.value;
      && |HitsOf(t)| == |acts|
      && forall i :: 0 <= i < |acts| ==>
           var h := HitsOf(t)[i];
           && h.moleculeChemblId == acts[i].moleculeChemblId && h.smiles == acts[i].canonicalSmiles
           && h.bioactivity == BioActivity(acts[i].standardType, acts[i].standardValue, acts[i].standardUnits)
           && h.analysis.None?
  {
    if t.Response? && t.body.Some? {
      var acts := t.body.value;
      assert HitsOf(t) == seq(|acts|, i requires 0 <= i < |acts| => HitOf(acts[i]));
    }
  }

  // ---------------------------------------------------------------------------------------------
  // analyzeCompound and the pipeline

  const RDKitNotInitialized: string := "RDKit not initialized"

  /**
   * `analyzeCompound`: `computeCompoundAnalysis` with its throw turned into a zeroed record, so it
   * never throws.
   */
  function AnalyzeCompound(rdkit: Option<Backend>, smiles: string): (a: Option<CompoundAnalysis>)
    ensures a.None? <==> smiles == ""
    ensures a.Some? ==> a.value.smiles == smiles
    ensures smiles != "" && rdkit.None? ==> a == Some(ZeroedAnalysis(smiles, RDKitNotInitialized))
    ensures rdkit.Some? ==> AnalysisOf(rdkit, smiles) == Ok(a)
  {
    match AnalysisOf(rdkit, smiles)
    case Ok(r) => AnalysisOutcomes(rdkit, smiles); r
    case Throw(_) => Some(ZeroedAnalysis(smiles, RDKitNotInitialized))
  }

  /** The hit mapping of lines 209-212: an analysis for every hit with a truthy SMILES. */
  function AttachAnalyses(hits: seq<HitCompound>, rdkit: Option<Backend>): (r: seq<HitCompound>)
  {
    seq(|hits|, i requires 0 <= i < |hits| =>
      hits[i].(analysis := if TruthyString(hits[i].smiles) then AnalyzeCompound(rdkit, hits[i].smiles.value) else None))
  }

  /**
   * Attaching analyses keeps the order and the length of the hits and every other field; a hit has
   * an analysis iff its SMILES is truthy, and that analysis is of the hit's own SMILES.
   */
  lemma {:induction false} AttachAnalysesShape(hits: seq<HitCompound>, rdkit: Option<Backend>)
    ensures |AttachAnalyses(hits, rdkit)| == |hits|
    ensures forall i :: 0 <= i < |hits| ==>
      var h := AttachAnalyses(hits, rdkit)[i];
      && h.moleculeChemblId == hits[i].moleculeChemblId && h.smiles == hits[i].smiles
      && h.bioactivity == hits[i].bioactivity
      && (h.analysis.Some? <==> TruthyString(hits[i].smiles))
      && (h.analysis.Some? ==> h.analysis.value.smiles == hits[i].smiles.value)
  {
  }

  /** The record pushed for one target (lines 198-217). */
  function TargetRecord(gw: Gateways, rdkit: Option<Backend>, t: Target, hitsPerTarget: int): TargetResult {
    var id := ChemblIdOf(gw.searchChemblTarget(t.symbol));
    var hits := if TruthyString(id) then AttachAnalyses(HitsOf(gw.activities(id.value, hitsPerTarget)), rdkit) else [];
    TargetResult(t.symbol, t.ensembl, t.score, id, hits, None)
  }

  function TargetRecords(gw: Gateways, rdkit: Option<Backend>, ts: seq<Target>, hitsPerTarget: int): (rs: seq<TargetResult>)
  {
    seq(|ts|, i requires 0 <= i < |ts| => TargetRecord(gw, rdkit, ts[i], hitsPerTarget))
  }

  /** One more target appends its record. */
  lemma {:induction false} TargetRecordsStep(gw: Gateways, rdkit: Option<Backend>, ts: seq<Target>, i: int, hitsPerTarget: int)
    requires 0 <= i < |ts|
    ensures TargetRecords(gw, rdkit, ts[..i + 1], hitsPerTarget)
            == TargetRecords(gw, rdkit, ts[..i], hitsPerTarget) + [TargetRecord(gw, rdkit, ts[i], hitsPerTarget)]
  {
  }

  /** The result of an early exit or of the top-level catch. */
  function Failure(message: string): DrugDiscoveryResult {
    DrugDiscoveryResult(None, None, [], Some(message))
  }

  const NoAssociatedTargets: string := "No associated targets found"
  const UnknownErrorOccurred: string := "Unknown error occurred"

  function NoEfoId(diseaseName: string): string {
    "No EFO ID found for '" + diseaseName + "'"
  }

  /**
   * What `runDrugDiscoveryPipeline` resolves to, from the state of the RDKit globals at the call
   * (`before`, `rdkit`) and the gateways' answers.
   */
  function PipelineOf(gw: Gateways, before: InitPromise, rdkit: Option<Backend>,
                      diseaseName: string, targetsToFetch: int, hitsPerTarget: int): DrugDiscoveryResult
    requires rdkit.Some? <==> before == Fulfilled
  {
    var efoId := EfoIdOf(gw.searchDisease(diseaseName));
    if !TruthyString(efoId) then Failure(NoEfoId(diseaseName))
    else match AssociatedTargetsOf(gw.diseaseTargets(efoId.value, targetsToFetch))
      case Throw(e) => Failure(MessageOr(e, UnknownErrorOccurred))
      case Ok(None) => Failure(NoAssociatedTargets)
      case Ok(Some(assoc)) =>
        match AwaitOutcome(before, rdkit, gw.rdkitLoad)
        case Throw(e) => Failure(MessageOr(e, UnknownErrorOccurred))
        case Ok(b) =>
          DrugDiscoveryResult(efoId, Some(assoc.disease), TargetRecords(gw, Some(b), assoc.targets, hitsPerTarget), None)
  }

  /** The pipeline gets as far as `await ensureRDKit()`: the disease has an EFO id and associated targets. */
  predicate ReachesRDKit(gw: Gateways, diseaseName: string, targetsToFetch: int) {
    var efoId := EfoIdOf(gw.searchDisease(diseaseName));
    && TruthyString(efoId)
    && var assoc := AssociatedTargetsOf(gw.diseaseTargets(efoId.value, targetsToFetch));
       assoc.Ok? && assoc.value.Some?
  }

  /**
   * `runDrugDiscoveryPipeline(diseaseName, targetsToFetch, hitsPerTarget)` against the RDKit globals
   * `rt`; the 200 ms pause after each target changes nothing and is not modelled. The globals change
   * only when the run reaches the RDKit await, and then hold the module it yields or its rejection.
   * (`loadsStarted <= 1` follows from `Valid()`; it is spelled out for the reader.)
   */
  method RunDrugDiscoveryPipeline(rt: RDKitRuntime, gw: Gateways, diseaseName: string,
                                  targetsToFetch: int := 5, hitsPerTarget: int := 10)
    returns (result: DrugDiscoveryResult)
    requires rt.Valid()
    modifies rt
    ensures rt.Valid() && rt.loadsStarted <= 1 && rt.liveMolecules == old(rt.liveMolecules)
    ensures result == PipelineOf(gw, old(rt.initPromise), old(rt.rdkit), diseaseName, targetsToFetch, hitsPerTarget)
    ensures !ReachesRDKit(gw, diseaseName, targetsToFetch) ==>
      rt.rdkit == old(rt.rdkit) && rt.initPromise == old(rt.initPromise) && rt.loadsStarted == old(rt.loadsStarted)
    ensures ReachesRDKit(gw, diseaseName, targetsToFetch) ==>
      var o := AwaitOutcome(old(rt.initPromise), old(rt.rdkit), gw.rdkitLoad);
      && (o.Ok? ==> rt.rdkit == Some(o.value) && rt.initPromise == Fulfilled)
      && (o.Throw? ==> rt.rdkit.None? && rt.initPromise == Rejected(o.error))
  {
    var efoId := EfoIdOf(gw.searchDisease(diseaseName));
    if !TruthyString(efoId) {
      return Failure(NoEfoId(diseaseName));
    }
    var assocResult := AssociatedTargetsOf(gw.diseaseTargets(efoId.value, targetsToFetch));
    if assocResult.Throw? {
      return Failure(MessageOr(assocResult.error, UnknownErrorOccurred));
    }
    if assocResult.value.None? {
      return Failure(NoAssociatedTargets);
    }
    var assoc := assocResult.value.value;
    assert ReachesRDKit(gw, diseaseName, targetsToFetch);
    var init := rt.AwaitInit(gw.rdkitLoad);
    if init.Throw? {
      return Failure(MessageOr(init.error, UnknownErrorOccurred));
    }
    var targets: seq<TargetResult> := [];
    for i := 0 to |assoc.targets|
      invariant targets == TargetRecords(gw, Some(init.value), assoc.targets[..i], hitsPerTarget)
      invariant rt.rdkit == Some(init.value) && rt.initPromise == Fulfilled && rt.Valid() && rt.loadsStarted <= 1
      invariant rt.liveMolecules == old(rt.liveMolecules)
    {
      var target := assoc.targets[i];
      var targetRecord := TargetResult(target.symbol, target.ensembl, target.score, None, [], None);
      var chemblId := GetChemblTargetId(gw.searchChemblTarget(target.symbol));
      targetRecord := targetRecord.(chemblTargetId := chemblId);
      if TruthyString(chemblId) {
        var hits := HitsOf(gw.activities(chemblId.value, hitsPerTarget));
        targetRecord := targetRecord.(hits := AttachAnalyses(hits, rt.rdkit));
      }
      assert targetRecord == TargetRecord(gw, Some(init.value), target, hitsPerTarget);
      TargetRecordsStep(gw, Some(init.value), assoc.targets, i, hitsPerTarget);
      targets := targets + [targetRecord];
    }
    assert assoc.targets[..|assoc.targets|] == assoc.targets;
    result := DrugDiscoveryResult(efoId, Some(assoc.disease), targets, None);
  }

  // ---------------------------------------------------------------------------------------------
  // Properties of the pipeline

  /** A result carries an error exactly when it is an early exit or a caught error, and then no targets. */
  lemma {:induction false} ErrorMeansNoTargets(gw: Gateways, before: InitPromise, rdkit: Option<Backend>,
                                               diseaseName: string, targetsToFetch: int, hitsPerTarget: int)
    requires rdkit.Some? <==> before == Fulfilled
    ensures var r := PipelineOf(gw, before, rdkit, diseaseName, targetsToFetch, hitsPerTarget);
      && (r.error.Some? ==> r.targets == [] && r.efoId.None? && r.diseaseName.None?)
      && (r.error.None? ==> TruthyString(r.efoId) && r.diseaseName.Some?)
  {
  }

  /** The two early exits (lines 183-190). */
  lemma {:induction false} EarlyExits(gw: Gateways, before: InitPromise, rdkit: Option<Backend>,
                                      diseaseName: string, targetsToFetch: int, hitsPerTarget: int)
    requires rdkit.Some? <==> before == Fulfilled
    ensures var efoId := EfoIdOf(gw.searchDisease(diseaseName));
      && (!TruthyString(efoId) ==>
            PipelineOf(gw, before, rdkit, diseaseName, targetsToFetch, hitsPerTarget) == Failure(NoEfoId(diseaseName)))
      && (TruthyString(efoId) && gw.diseaseTargets(efoId.value, targetsToFetch) == Response(None) ==>
            PipelineOf(gw, before, rdkit, diseaseName, targetsToFetch, hitsPerTarget) == Failure(NoAssociatedTargets))
  {
  }

  /**
   * A throw from the association gateway, or an RDKit load that rejects, is caught at the top level:
   * the result is the error message (or 'Unknown error occurred') and no targets.
   */
  lemma {:induction false} CaughtErrors(gw: Gateways, before: InitPromise, rdkit: Option<Backend>,
                                        diseaseName: string, targetsToFetch: int, hitsPerTarget: int)
    requires rdkit.Some? <==> before == Fulfilled
    requires TruthyString(EfoIdOf(gw.searchDisease(diseaseName)))
    ensures var t := gw.diseaseTargets(EfoIdOf(gw.searchDisease(diseaseName)).value, targetsToFetch);
      && (t.Failed? ==> PipelineOf(gw, before, rdkit, diseaseName, targetsToFetch, hitsPerTarget)
                          == Failure(MessageOr(t.error, UnknownErrorOccurred)))
      && (t.Response? && t.body.Some? && AwaitOutcome(before, rdkit, gw.rdkitLoad).Throw? ==>
            PipelineOf(gw, before, rdkit, diseaseName, targetsToFetch, hitsPerTarget)
              == Failure(MessageOr(AwaitOutcome(before, rdkit, gw.rdkitLoad).error, UnknownErrorOccurred)))
  {
  }

  /**
   * On normal completion there is one record per associated target, in order, with symbol, ensembl
   * and score copied; `chemblError` is never set, because both ChEMBL gateways turn every error
   * into null or []; a target without a ChEMBL id has no hits, and a target with one has exactly
   * the gateway's hits, in order, each analysed iff it has a SMILES string.
   */
  lemma {:induction false} CompletedRun(gw: Gateways, before: InitPromise, rdkit: Option<Backend>,
                                        diseaseName: string, targetsToFetch: int, hitsPerTarget: int)
    requires rdkit.Some? <==> before == Fulfilled
    requires TruthyString(EfoIdOf(gw.searchDisease(diseaseName)))
    requires gw.diseaseTargets(EfoIdOf(gw.searchDisease(diseaseName)).value, targetsToFetch).Response?
    requires gw.diseaseTargets(EfoIdOf(gw.searchDisease(diseaseName)).value, targetsToFetch).body.Some?
    requires AwaitOutcome(before, rdkit, gw.rdkitLoad).Ok?
    ensures var r := PipelineOf(gw, before, rdkit, diseaseName, targetsToFetch, hitsPerTarget);
      var efoId := EfoIdOf(gw.searchDisease(diseaseName));
      var d := gw.diseaseTargets(efoId.value, targetsToFetch).body.value;
      && r.error.None? && r.efoId == efoId && r.diseaseName == Some(d.name)
      && |r.targets| == |d.rows|
      && forall i :: 0 <= i < |d.rows| ==>
           var rec := r.targets[i];
           && rec.symbol == d.rows[i].approvedSymbol && rec.ensembl == d.rows[i].targetId
           && rec.score == d.rows[i].score
           && rec.chemblError.None?
           && rec.chemblTargetId == ChemblIdOf(gw.searchChemblTarget(rec.symbol))
           && (!TruthyString(rec.chemblTargetId) ==> rec.hits == [])
           && (TruthyString(rec.chemblTargetId) ==>
                 var fetched := HitsOf(gw.activities(rec.chemblTargetId.value, hitsPerTarget));
                 && |rec.hits| == |fetched|
                 && forall j :: 0 <= j < |fetched| ==>
                      rec.hits[j].(analysis := None) == fetched[j]
                      && (rec.hits[j].analysis.Some? <==> TruthyString(fetched[j].smiles)))
  {
    var efoId := EfoIdOf(gw.searchDisease(diseaseName));
    var d := gw.diseaseTargets(efoId.value, targetsToFetch).body.value;
    var b := AwaitOutcome(before, rdkit, gw.rdkitLoad).value;
    var r := PipelineOf(gw, before, rdkit, diseaseName, targetsToFetch, hitsPerTarget);
    assert r.targets == TargetRecords(gw, Some(b), TargetsOf(d.rows), hitsPerTarget);
    forall i | 0 <= i < |d.rows|
      ensures var rec := r.targets[i];
        TruthyString(rec.chemblTargetId) ==>
          var fetched := HitsOf(gw.activities(rec.chemblTargetId.value, hitsPerTarget));
          forall j :: 0 <= j < |fetched| ==>
            rec.hits[j].(analysis := None) == fetched[j]
            && (rec.hits[j].analysis.Some? <==> TruthyString(fetched[j].smiles))
    {
      var rec := r.targets[i];
      if TruthyString(rec.chemblTargetId) {
        var fetched := HitsOf(gw.activities(rec.chemblTargetId.value, hitsPerTarget));
        HitsShape(gw.activities(rec.chemblTargetId.value, hitsPerTarget));
        AttachAnalysesShape(fetched, Some(b));
      }
    }
  }
}
