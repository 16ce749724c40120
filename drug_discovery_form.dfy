/**
 * The search form of src/components/DrugDiscoveryForm.tsx: its three state fields, the numeric
 * inputs' `parseInt(...) || default` fallbacks, the submit guard and the disabled rule.
 */
module DrugDiscoveryForm {
  import opened Js

  /** The arguments `onSearch` receives. */
  datatype Search = Search(diseaseName: string, targetsToFetch: int, hitsPerTarget: int)

  const DefaultTargets: int := 5
  const DefaultHits: int := 10

  /** `parseInt(text) || fallback`: NaN and 0 (also -0) fall back, every other integer is kept. */
  function CountOrDefault(text: string, fallback: int): (n: int)
    ensures ParseInt(text).None? || ParseInt(text) == Some(0) ==> n == fallback
    ensures ParseInt(text).Some? && ParseInt(text) != Some(0) ==> n == ParseInt(text).value
  {
    match ParseInt(text)
    case None => fallback
    case Some(v) => if v == 0 then fallback else v
  }

  /**
   * Typing the integer `n` keeps it unless it is 0, whatever its sign and however far beyond the
   * input's `min` and `max`; an empty field falls back.
   */
  lemma {:induction false} FallbackOnlyForZero(n: int, fallback: int)
    ensures CountOrDefault(IntText(n), fallback) == if n == 0 then fallback else n
    ensures CountOrDefault("", fallback) == fallback
  {
    ParseIntOfIntText(n);
    ParseIntWithoutDigits("");
  }

  /** `handleSubmit`: a search with the trimmed name and the current counts, when that name is not empty. */
  function SubmitOf(diseaseName: string, targetsToFetch: int, hitsPerTarget: int): (s: Option<Search>)
    ensures s.None? <==> forall i :: 0 <= i < |diseaseName| ==> IsWhitespace(diseaseName[i])
    ensures s.Some? ==>
      && s.value.diseaseName == Trim(diseaseName) && s.value.diseaseName != ""
      && s.value.targetsToFetch == targetsToFetch && s.value.hitsPerTarget == hitsPerTarget
  {
    var name := Trim(diseaseName);
    if name != "" then Some(Search(name, targetsToFetch, hitsPerTarget)) else None
  }

  /** `!diseaseName.trim() || isLoading`. */
  function SubmitDisabled(diseaseName: string, isLoading: bool): (disabled: bool)
    ensures disabled <==> isLoading || forall i :: 0 <= i < |diseaseName| ==> IsWhitespace(diseaseName[i])
  {
    Trim(diseaseName) == "" || isLoading
  }

  /** Outside a search, the button is enabled exactly when submitting would call `onSearch`. */
  lemma {:induction false} EnabledIffSubmits(diseaseName: string, targetsToFetch: int, hitsPerTarget: int)
    ensures !SubmitDisabled(diseaseName, false) <==> SubmitOf(diseaseName, targetsToFetch, hitsPerTarget).Some?
    ensures SubmitDisabled(diseaseName, true)
  {
  }

  /** The search names what was typed without its surrounding whitespace: trimming it again changes nothing. */
  lemma {:induction false} SubmittedNameIsTrimmed(diseaseName: string, targetsToFetch: int, hitsPerTarget: int)
    requires SubmitOf(diseaseName, targetsToFetch, hitsPerTarget).Some?
    ensures var name := SubmitOf(diseaseName, targetsToFetch, hitsPerTarget).value.diseaseName;
      Trim(name) == name
  {
    var name := Trim(diseaseName);
    TrimOfTrimmed(name);
  }

  lemma {:induction false} TrimOfTrimmed(s: string)
    requires s != [] && !IsWhitespace(s[0]) && !IsWhitespace(s[|s| - 1])
    ensures Trim(s) == s
  {
    assert TrimEnd(s) == s;
    assert TrimStart(s) == s;
  }

  class FormState {
    var diseaseName: string
    var targetsToFetch: int
    var hitsPerTarget: int

    /** The form starts empty, with 5 targets and 10 compounds per target. */
    constructor()
      ensures diseaseName == "" && targetsToFetch == DefaultTargets && hitsPerTarget == DefaultHits
    {
      diseaseName, targetsToFetch, hitsPerTarget := "", DefaultTargets, DefaultHits;
    }

    /** The disease field's `onChange`. */
    method ChangeDiseaseName(value: string)
      modifies this`diseaseName
      ensures diseaseName == value
    {
      diseaseName := value;
    }

    /** The Target Proteins field's `onChange`. */
    method ChangeTargets(text: string)
      modifies this`targetsToFetch
      ensures targetsToFetch == CountOrDefault(text, DefaultTargets)
    {
      targetsToFetch := CountOrDefault(text, DefaultTargets);
    }

    /** The Compounds per Target field's `onChange`. */
    method ChangeHits(text: string)
      modifies this`hitsPerTarget
      ensures hitsPerTarget == CountOrDefault(text, DefaultHits)
    {
      hitsPerTarget := CountOrDefault(text, DefaultHits);
    }

    /** `handleSubmit`: what `onSearch` is called with, if it is called. */
    method HandleSubmit() returns (search: Option<Search>)
      ensures search == SubmitOf(diseaseName, targetsToFetch, hitsPerTarget)
    {
      search := SubmitOf(diseaseName, targetsToFetch, hitsPerTarget);
    }
  }
}
