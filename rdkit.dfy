/**
 * The descriptor engine of src/lib/rdkit.ts: the lazily loaded RDKit module (two module globals,
 * `RDKit` and `initPromise`), and `computeCompoundAnalysis`, which parses a SMILES string, reads the
 * backend's descriptors and classifies the molecule by the Lipinski, Veber and lead-like rules.
 *
 * The backend itself is an oracle: `Backend.getMol` says, for each SMILES string, whether `get_mol`
 * parses it and what the descriptor and QED calls then report.
 */
module Rdkit {
  import opened Js

  /** The record `computeCompoundAnalysis` returns (the `CompoundAnalysis` interface of drugDiscovery.ts). */
  datatype CompoundAnalysis = CompoundAnalysis(
    smiles: string,
    molWt: real,
    logP: real,
    tpsa: real,
    hbd: JsNumber,
    hba: JsNumber,
    rotBonds: JsNumber,
    qed: real,
    lipinskiViolations: int,
    veberPass: bool,
    leadLike: bool,
    error: Option<string>)

  /**
   * The descriptors of a parsed molecule as `Number(desc?.X ?? desc?.Y ?? 0)` sees them, with the
   * alternate field names already resolved: None when every alternative is absent.
   */
  datatype Descriptors = Descriptors(
    molWt: Option<JsNumber>,
    tpsa: Option<JsNumber>,
    hbd: Option<JsNumber>,
    hba: Option<JsNumber>,
    rotBonds: Option<JsNumber>,
    logP: Option<JsNumber>)

  /** The QED lookup: a value from the first QED function present, no such function, or a throw. */
  datatype QedAnswer = QedValue(n: JsNumber) | NoQedFunction | QedThrew

  /**
   * What the backend does with one SMILES string: `get_mol` returns null, or it returns a molecule
   * whose descriptors are read (or the reading throws) and whose QED is looked up.
   */
  datatype MolAnswer = Unparsable | Parsed(descriptors: Result<Descriptors>, qed: QedAnswer)

  /** A loaded RDKit module, as far as this code uses it. */
  datatype Backend = Backend(getMol: string -> MolAnswer)

  const NotInitialized: Thrown := ErrorObject("Error", "RDKit not initialized")
  const InvalidSmiles: string := "invalid_smiles"

  /** The record of a failed analysis: every number 0, every flag false, the SMILES echoed. */
  function ZeroedAnalysis(smiles: string, error: string): CompoundAnalysis {
    CompoundAnalysis(smiles, 0.0, 0.0, 0.0, Finite(0.0), Finite(0.0), Finite(0.0), 0.0, 0, false, false, Some(error))
  }

  ghost predicate IsZeroed(a: CompoundAnalysis) {
    && a.molWt == 0.0 && a.logP == 0.0 && a.tpsa == 0.0 && a.qed == 0.0
    && a.hbd == Finite(0.0) && a.hba == Finite(0.0) && a.rotBonds == Finite(0.0)
    && a.lipinskiViolations == 0 && !a.veberPass && !a.leadLike
  }

  /** `?? 0`: an absent descriptor reads as 0. */
  function OrZero(n: Option<JsNumber>): JsNumber {
    if n.Some? then n.value else Finite(0.0)
  }

  /**
   * The `rounded` helper: `toFixed(d)` for a finite value, 0 for NaN and the infinities; either way
   * a value with at most `d` decimals.
   */
  function Rounded(n: JsNumber, d: nat): (r: real)
    ensures n.Finite? ==> -0.5 / (Pow10(d) as real) <= r - n.value <= 0.5 / (Pow10(d) as real)
    ensures !n.Finite? ==> r == 0.0
    ensures HasDecimals(r, d)
  {
    if n.Finite? then ToFixedIsClose(n.value, d); ToFixed(n.value, d)
    else assert Units(0, Pow10(d)) == 0.0; 0.0
  }

  /** The QED value: what the QED function returned, else 0. */
  function QedOf(q: QedAnswer): JsNumber {
    if q.QedValue? then q.n else Finite(0.0)
  }

  // ---------------------------------------------------------------------------------------------
  // The classification rules

  /** The number of true flags. */
  function CountTrue(flags: seq<bool>): (n: int)
    ensures 0 <= n <= |flags|
  {
    if flags == [] then 0 else (if flags[0] then 1 else 0) + CountTrue(flags[1..])
  }

  /** Setting one false flag raises the count by exactly one. */
  lemma {:induction false} CountTrueRaise(flags: seq<bool>, i: nat)
    requires i < |flags| && !flags[i]
    ensures CountTrue(flags[i := true]) == CountTrue(flags) + 1
  {
    if i > 0 {
      CountTrueRaise(flags[1..], i - 1);
      assert flags[i := true][1..] == flags[1..][i - 1 := true];
    }
  }

  /** The Lipinski limits, in the order MolWt, LogP, HBD, HBA. */
  const LipinskiLimits: seq<real> := [500.0, 5.0, 5.0, 10.0]

  /** Which of the four Lipinski limits `v` (MolWt, LogP, HBD, HBA) exceeds. */
  function LipinskiFlags(v: seq<JsNumber>): (flags: seq<bool>)
    requires |v| == 4
    ensures |flags| == 4 && forall i :: 0 <= i < 4 ==> (flags[i] <==> Gt(v[i], LipinskiLimits[i]))
  {
    [Gt(v[0], 500.0), Gt(v[1], 5.0), Gt(v[2], 5.0), Gt(v[3], 10.0)]
  }

  /** The rule-of-five violation count: how many of MolWt > 500, LogP > 5, HBD > 5, HBA > 10 hold. */
  function LipinskiViolations(molWt: JsNumber, logP: JsNumber, hbd: JsNumber, hba: JsNumber): (n: int)
    ensures 0 <= n <= 4
    ensures n == 0 <==> !Gt(molWt, 500.0) && !Gt(logP, 5.0) && !Gt(hbd, 5.0) && !Gt(hba, 10.0)
    ensures n == 4 <==> Gt(molWt, 500.0) && Gt(logP, 5.0) && Gt(hbd, 5.0) && Gt(hba, 10.0)
  {
    var flags := LipinskiFlags([molWt, logP, hbd, hba]);
    CountFour(flags);
    CountTrue(flags)
  }

  /** The count of four flags, written out. */
  lemma {:induction false} CountFour(flags: seq<bool>)
    requires |flags| == 4
    ensures CountTrue(flags) == (if flags[0] then 1 else 0) + (if flags[1] then 1 else 0)
                              + (if flags[2] then 1 else 0) + (if flags[3] then 1 else 0)
  {
    assert flags[3..][1..] == [];
    assert CountTrue(flags[3..]) == (if flags[3] then 1 else 0);
    assert flags[2..][1..] == flags[3..];
    assert CountTrue(flags[2..]) == (if flags[2] then 1 else 0) + CountTrue(flags[3..]);
    assert flags[1..][1..] == flags[2..];
    assert CountTrue(flags[1..]) == (if flags[1] then 1 else 0) + CountTrue(flags[2..]);
  }

  /**
   * Crossing one Lipinski limit on its own, with the other three descriptors fixed, changes the
   * count by exactly one.
   */
  lemma {:induction false} LipinskiSingleCrossing(v: seq<JsNumber>, i: nat, x: JsNumber)
    requires |v| == 4 && i < 4
    requires !Gt(v[i], LipinskiLimits[i]) && Gt(x, LipinskiLimits[i])
    ensures i == 0 ==> LipinskiViolations(x, v[1], v[2], v[3]) == LipinskiViolations(v[0], v[1], v[2], v[3]) + 1
    ensures i == 1 ==> LipinskiViolations(v[0], x, v[2], v[3]) == LipinskiViolations(v[0], v[1], v[2], v[3]) + 1
    ensures i == 2 ==> LipinskiViolations(v[0], v[1], x, v[3]) == LipinskiViolations(v[0], v[1], v[2], v[3]) + 1
    ensures i == 3 ==> LipinskiViolations(v[0], v[1], v[2], x) == LipinskiViolations(v[0], v[1], v[2], v[3]) + 1
  {
    var before := LipinskiFlags(v);
    var after := LipinskiFlags(v[i := x]);
    assert v == [v[0], v[1], v[2], v[3]];
    assert after == before[i := true];
    CountTrueRaise(before, i);
    assert v[i := x] == [if i == 0 then x else v[0], if i == 1 then x else v[1],
                         if i == 2 then x else v[2], if i == 3 then x else v[3]];
  }

  /** Veber's rule: TPSA <= 140 and at most 10 rotatable bonds. */
  predicate VeberPass(tpsa: JsNumber, rotBonds: JsNumber) {
    Le(tpsa, 140.0) && Le(rotBonds, 10.0)
  }

  /** The lead-like rule: MolWt <= 350, LogP <= 3, HBD <= 3, HBA <= 6, RotBonds <= 7. */
  predicate LeadLike(molWt: JsNumber, logP: JsNumber, hbd: JsNumber, hba: JsNumber, rotBonds: JsNumber) {
    Le(molWt, 350.0) && Le(logP, 3.0) && Le(hbd, 3.0) && Le(hba, 6.0) && Le(rotBonds, 7.0)
  }

  /** The record of a parsed molecule whose descriptors were read: rounding and flags (rdkit.ts:45-81). */
  function Classify(smiles: string, d: Descriptors, q: QedAnswer): CompoundAnalysis {
    var molWt, tpsa, logP := OrZero(d.molWt), OrZero(d.tpsa), OrZero(d.logP);
    var hbd, hba, rotBonds := OrZero(d.hbd), OrZero(d.hba), OrZero(d.rotBonds);
    CompoundAnalysis(
      smiles,
      Rounded(molWt, 2), Rounded(logP, 2), Rounded(tpsa, 2),
      hbd, hba, rotBonds,
      Rounded(QedOf(q), 3),
      LipinskiViolations(molWt, logP, hbd, hba),
      VeberPass(tpsa, rotBonds),
      LeadLike(molWt, logP, hbd, hba, rotBonds),
      None)
  }

  /**
   * What `computeCompoundAnalysis(smiles)` returns or throws, given the loaded module (None while
   * `RDKit` is null).
   */
  function AnalysisOf(rdkit: Option<Backend>, smiles: string): Result<Option<CompoundAnalysis>> {
    if smiles == "" then Ok(None)
    else if rdkit.None? then Throw(NotInitialized)
    else match rdkit.value.getMol(smiles)
      case Unparsable => Ok(Some(ZeroedAnalysis(smiles, InvalidSmiles)))
      case Parsed(Throw(e), _) => Ok(Some(ZeroedAnalysis(smiles, MessageOrText(e))))
      case Parsed(Ok(d), q) => Ok(Some(Classify(smiles, d, q)))
  }

  // ---------------------------------------------------------------------------------------------
  // Properties of the analysis

  /**
   * The outcomes of `computeCompoundAnalysis`: null for an empty string, a throw before any parsing
   * when the module is not loaded, and otherwise a record for the same SMILES that is either
   * zeroed with an error or carries no error at all.
   */
  lemma {:induction false} AnalysisOutcomes(rdkit: Option<Backend>, smiles: string)
    ensures smiles == "" ==> AnalysisOf(rdkit, smiles) == Ok(None)
    ensures smiles != "" && rdkit.None? ==> AnalysisOf(rdkit, smiles) == Throw(NotInitialized)
    ensures smiles != "" && rdkit.Some? ==>
      && AnalysisOf(rdkit, smiles).Ok?
      && AnalysisOf(rdkit, smiles).value.Some?
      && AnalysisOf(rdkit, smiles).value.value.smiles == smiles
      && (AnalysisOf(rdkit, smiles).value.value.error.Some? ==> IsZeroed(AnalysisOf(rdkit, smiles).value.value))
    ensures smiles != "" && rdkit.Some? && rdkit.value.getMol(smiles).Unparsable? ==>
      AnalysisOf(rdkit, smiles).value.value.error == Some(InvalidSmiles)
    ensures smiles != "" && rdkit.Some? && rdkit.value.getMol(smiles).Parsed? ==>
      var m := rdkit.value.getMol(smiles);
      AnalysisOf(rdkit, smiles).value.value.error ==
        if m.descriptors.Throw? then Some(MessageOrText(m.descriptors.error)) else None
  {
  }

  /**
   * A successful record: the Lipinski count is in 0..4, the stored MolWt, LogP and TPSA are within
   * 0.005 of the descriptors and QED within 0.0005, each is 0 when its input is not finite, MolWt,
   * LogP and TPSA carry at most two decimals and QED three, and the flags are the Veber and
   * lead-like rules over the unrounded descriptors.
   */
  lemma {:induction false} SuccessfulAnalysis(smiles: string, d: Descriptors, q: QedAnswer)
    ensures var a := Classify(smiles, d, q);
      && a.error.None?
      && 0 <= a.lipinskiViolations <= 4
      && (OrZero(d.molWt).Finite? ==> -0.005 <= a.molWt - OrZero(d.molWt).value <= 0.005)
      && (OrZero(d.logP).Finite? ==> -0.005 <= a.logP - OrZero(d.logP).value <= 0.005)
      && (OrZero(d.tpsa).Finite? ==> -0.005 <= a.tpsa - OrZero(d.tpsa).value <= 0.005)
      && (QedOf(q).Finite? ==> -0.0005 <= a.qed - QedOf(q).value <= 0.0005)
      && (!OrZero(d.molWt).Finite? ==> a.molWt == 0.0) && (!OrZero(d.logP).Finite? ==> a.logP == 0.0)
      && (!OrZero(d.tpsa).Finite? ==> a.tpsa == 0.0) && (!QedOf(q).Finite? ==> a.qed == 0.0)
      && HasDecimals(a.molWt, 2) && HasDecimals(a.logP, 2) && HasDecimals(a.tpsa, 2) && HasDecimals(a.qed, 3)
      && a.hbd == OrZero(d.hbd) && a.hba == OrZero(d.hba) && a.rotBonds == OrZero(d.rotBonds)
      && (a.veberPass <==> Le(OrZero(d.tpsa), 140.0) && Le(OrZero(d.rotBonds), 10.0))
      && (a.leadLike <==> Le(OrZero(d.molWt), 350.0) && Le(OrZero(d.logP), 3.0) && Le(OrZero(d.hbd), 3.0)
                          && Le(OrZero(d.hba), 6.0) && Le(OrZero(d.rotBonds), 7.0))
  {
    assert Pow10(2) == 100 && Pow10(3) == 1000;
  }

  /**
   * A missing descriptor is read as 0 and the record still carries no error: with every descriptor
   * and QED missing, the result is the all-zero record of a molecule that passes Veber's rule and
   * is lead-like.
   */
  lemma {:induction false} MissingDescriptorsAreZeroFilled(smiles: string)
    ensures var a := Classify(smiles, Descriptors(None, None, None, None, None, None), NoQedFunction);
      && a.error.None? && a.molWt == 0.0 && a.tpsa == 0.0 && a.logP == 0.0 && a.qed == 0.0
      && a.hbd == Finite(0.0) && a.lipinskiViolations == 0 && a.veberPass && a.leadLike
  {
    assert ToFixed(0.0, 2) == 0.0 && ToFixed(0.0, 3) == 0.0 by {
      assert Pow10(2) == 100 && Pow10(3) == 1000;
    }
  }

  /**
   * The flags are computed from the unrounded descriptors, so they can disagree with the stored,
   * rounded fields: a TPSA of 140.004 is stored as 140, yet Veber's rule fails.
   */
  lemma {:induction false} FlagsUseUnroundedValues(smiles: string)
    ensures var a := Classify(smiles, Descriptors(None, Some(Finite(140.004)), None, None, None, None), NoQedFunction);
      a.tpsa == 140.0 && a.rotBonds == Finite(0.0) && !a.veberPass && VeberPass(Finite(a.tpsa), a.rotBonds)
  {
    assert Pow10(2) == 100;
    assert 140.004 * 100 as real == 14000.4;
    assert RoundHalfAway(14000.4) == 14000;
  }

  // ---------------------------------------------------------------------------------------------
  // The module globals and the descriptor computation

  /** The state of the shared `initPromise`: none yet, in flight, fulfilled or rejected. */
  datatype InitPromise = NoPromise | Pending | Fulfilled | Rejected(error: Thrown)

  /** How the one call of `initRDKit` settles: with a module, or with an error. */
  datatype LoadAnswer = Loaded(backend: Backend) | LoadFailed(error: Thrown)

  /**
   * What `await ensureRDKit()` yields from a state: the loaded module, the answer of the load it
   * starts or joins, or the stored rejection.
   */
  function AwaitOutcome(before: InitPromise, rdkit: Option<Backend>, answer: LoadAnswer): (r: Result<Backend>)
    requires rdkit.Some? <==> before == Fulfilled
    ensures before == Fulfilled ==> r == Ok(rdkit.value)
    ensures before.Rejected? ==> r == Throw(before.error)
    ensures (before == NoPromise || before == Pending) && answer.Loaded? ==> r == Ok(answer.backend)
    ensures (before == NoPromise || before == Pending) && answer.LoadFailed? ==> r == Throw(answer.error)
  {
    if rdkit.Some? then Ok(rdkit.value)
    else match before
      case Rejected(e) => Throw(e)
      case Fulfilled => assert false; Throw(NotInitialized)
      case _ =>
        match answer
        case Loaded(b) => Ok(b)
        case LoadFailed(e) => Throw(e)
  }

  /**
   * The two module globals of rdkit.ts and the molecule handles that are alive in the WASM heap.
   * `loadsStarted` counts the calls of `initRDKit`.
   */
  class RDKitRuntime {
    var rdkit: Option<Backend>
    var initPromise: InitPromise
    var loadsStarted: nat
    var liveMolecules: int

    /**
     * The module is set exactly when the load was fulfilled, and a load starts with the promise; so
     * at most one load is ever started, which the methods' `loadsStarted <= 1` spells out.
     */
    ghost predicate Valid()
      reads this
    {
      && (rdkit.Some? <==> initPromise == Fulfilled)
      && loadsStarted == (if initPromise == NoPromise then 0 else 1)
    }

    constructor ()
      ensures Valid() && rdkit.None? && initPromise == NoPromise && loadsStarted == 0 && liveMolecules == 0
    {
      rdkit := None;
      initPromise := NoPromise;
      loadsStarted := 0;
      liveMolecules := 0;
    }

    /** `isRDKitReady()`: true exactly when the load has been fulfilled. */
    function IsRDKitReady(): (ready: bool)
      reads this
      requires Valid()
      ensures ready <==> initPromise == Fulfilled
    {
      rdkit.Some?
    }

    /**
     * `ensureRDKit()`: returns at once when the module is loaded, starts the one load when there is
     * no promise yet, and otherwise hands back the promise already there.
     */
    method EnsureRDKit() returns (p: InitPromise)
      requires Valid()
      modifies this
      ensures Valid() && loadsStarted <= 1 && liveMolecules == old(liveMolecules)
      ensures old(rdkit).Some? ==> p == Fulfilled && rdkit == old(rdkit) && initPromise == old(initPromise)
      ensures old(rdkit).None? && old(initPromise) == NoPromise ==>
        p == Pending && initPromise == Pending && loadsStarted == 1 && rdkit.None?
      ensures old(rdkit).None? && old(initPromise) != NoPromise ==>
        p == old(initPromise) && initPromise == old(initPromise) && loadsStarted == old(loadsStarted) && rdkit.None?
    {
      if rdkit.Some? {
        return Fulfilled;
      }
      if initPromise == NoPromise {
        initPromise := Pending;
        loadsStarted := loadsStarted + 1;
      }
      p := initPromise;
    }

    /** The load started by `EnsureRDKit` settles: `.then` stores the module, `.catch` rethrows. */
    method SettleLoad(answer: LoadAnswer)
      requires Valid()
      modifies this
      ensures Valid() && loadsStarted == old(loadsStarted) && liveMolecules == old(liveMolecules)
      ensures old(initPromise) == Pending && answer.Loaded? ==> rdkit == Some(answer.backend) && initPromise == Fulfilled
      ensures old(initPromise) == Pending && answer.LoadFailed? ==> rdkit.None? && initPromise == Rejected(answer.error)
      ensures old(initPromise) != Pending ==> rdkit == old(rdkit) && initPromise == old(initPromise)
    {
      if initPromise == Pending {
        match answer
        case Loaded(b) =>
          rdkit := Some(b);
          initPromise := Fulfilled;
        case LoadFailed(e) =>
          initPromise := Rejected(e);
      }
    }

    /**
     * `await ensureRDKit()`, with the load (when one is in flight) settling by `answer`. A rejection
     * is sticky: every later await yields the same error and the module stays unloaded.
     */
    method AwaitInit(answer: LoadAnswer) returns (r: Result<Backend>)
      requires Valid()
      modifies this
      ensures Valid() && loadsStarted <= 1 && liveMolecules == old(liveMolecules)
      ensures r == AwaitOutcome(old(initPromise), old(rdkit), answer)
      ensures r.Ok? <==> rdkit.Some?
      ensures r.Ok? ==> rdkit == Some(r.value)
      ensures r.Throw? ==> initPromise == Rejected(r.error)
      ensures old(rdkit).Some? ==> rdkit == old(rdkit)
      ensures old(initPromise).Rejected? ==> initPromise == old(initPromise) && rdkit.None?
    {
      var p := EnsureRDKit();
      if p == Pending {
        SettleLoad(answer);
        p := initPromise;
      }
      if rdkit.Some? {
        r := Ok(rdkit.value);
      } else {
        r := Throw(p.error);
      }
    }

    /**
     * `computeCompoundAnalysis(smiles)`: the parsed molecule's handle is deleted on every path, so
     * no handle outlives the call.
     */
    method ComputeCompoundAnalysis(smiles: string) returns (r: Result<Option<CompoundAnalysis>>)
      modifies this`liveMolecules
      ensures liveMolecules == old(liveMolecules)
      ensures r == AnalysisOf(rdkit, smiles)
    {
      if smiles == "" {
        return Ok(None);
      }
      if rdkit.None? {
        return Throw(NotInitialized);
      }
      var answer := rdkit.value.getMol(smiles);
      if answer.Unparsable? {
        // `get_mol` returned null: nothing was allocated and `mol?.delete?.()` does nothing.
        return Ok(Some(ZeroedAnalysis(smiles, InvalidSmiles)));
      }
      liveMolecules := liveMolecules + 1;
      match answer.descriptors {
        case Throw(e) =>
          r := Ok(Some(ZeroedAnalysis(smiles, MessageOrText(e))));
        case Ok(d) =>
          var analysis := ClassifyDescriptors(smiles, d, answer.qed);
          r := Ok(Some(analysis));
      }
      // `finally`: mol.delete()
      liveMolecules := liveMolecules - 1;
    }
  }

  /** The `try` block once the descriptors were read: the record of a parsed molecule. */
  method ClassifyDescriptors(smiles: string, d: Descriptors, q: QedAnswer) returns (a: CompoundAnalysis)
    ensures a == Classify(smiles, d, q)
  {
    var molWt, tpsa := OrZero(d.molWt), OrZero(d.tpsa);
    var hbd, hba := OrZero(d.hbd), OrZero(d.hba);
    var rotBonds, logP := OrZero(d.rotBonds), OrZero(d.logP);
    var qed := Finite(0.0);
    if q.QedValue? {
      qed := q.n;
    }
    var lip := 0;
    if Gt(molWt, 500.0) { lip := lip + 1; }
    if Gt(logP, 5.0) { lip := lip + 1; }
    if Gt(hbd, 5.0) { lip := lip + 1; }
    if Gt(hba, 10.0) { lip := lip + 1; }
    LipinskiUnrolled(molWt, logP, hbd, hba);
    assert lip == LipinskiViolations(molWt, logP, hbd, hba);
    assert qed == QedOf(q);
    a := CompoundAnalysis(
      smiles,
      Rounded(molWt, 2), Rounded(logP, 2), Rounded(tpsa, 2),
      hbd, hba, rotBonds,
      Rounded(qed, 3),
      lip,
      Le(tpsa, 140.0) && Le(rotBonds, 10.0),
      Le(molWt, 350.0) && Le(logP, 3.0) && Le(hbd, 3.0) && Le(hba, 6.0) && Le(rotBonds, 7.0),
      None);
  }

  /** The count of Lipinski violations, one threshold at a time, as rdkit.ts:64-68 accumulates it. */
  lemma {:induction false} LipinskiUnrolled(molWt: JsNumber, logP: JsNumber, hbd: JsNumber, hba: JsNumber)
    ensures LipinskiViolations(molWt, logP, hbd, hba)
      == (if Gt(molWt, 500.0) then 1 else 0) + (if Gt(logP, 5.0) then 1 else 0)
       + (if Gt(hbd, 5.0) then 1 else 0) + (if Gt(hba, 10.0) then 1 else 0)
  {
    CountFour(LipinskiFlags([molWt, logP, hbd, hba]));
  }

  /**
   * After a failed load, every later `await ensureRDKit()` rejects with the same error, whatever the
   * later answers would have been, `isRDKitReady()` stays false, and only one load was ever started.
   */
  method FailedLoadIsSticky(e: Thrown, b: Backend) returns (first: Result<Backend>, second: Result<Backend>, ready: bool, loads: nat)
    ensures first == Throw(e) && second == Throw(e)
    ensures !ready && loads == 1
  {
    var rt := new RDKitRuntime();
    first := rt.AwaitInit(LoadFailed(e));
    second := rt.AwaitInit(Loaded(b));
    ready := rt.IsRDKitReady();
    loads := rt.loadsStarted;
  }
}
