/**
 * The drug-interaction form: a list of medication fields (never fewer than
 * two), a check that sends the filled-in names, and the text of the last reply.
 */
module InteractionChecker {
  import opened Prelude
  import JsText
  import Seqs

  const NoInteractions := "No interactions found."
  const CheckFailed := "Error checking interactions."

  /** A field counts as filled when it is not all whitespace (`d.trim()` is truthy). */
  predicate IsFilled(d: string) {
    JsText.Trim(d) != []
  }

  /** `drugs.filter(d => d.trim())`: the filled-in names, untrimmed, in field order, each as often as it was entered. */
  function ValidDrugs(drugs: seq<string>): (r: seq<string>)
    ensures |r| <= |drugs|
    ensures forall d :: d in r <==> d in drugs && IsFilled(d)
    ensures Seqs.IsSubsequence(r, drugs)
    ensures forall d :: multiset(r)[d] == (if IsFilled(d) then multiset(drugs)[d] else 0)
  {
    Seqs.FilterCount(drugs, IsFilled);
    Seqs.Filter(drugs, IsFilled)
  }

  /** A field is filled exactly when it holds some character that is not whitespace. */
  lemma FilledIffNotBlank(d: string)
    ensures IsFilled(d) <==> exists i :: 0 <= i < |d| && !JsText.IsWhitespace(d[i])
  {
    JsText.TrimEmptyIff(d);
  }

  /**
   * The check button is enabled, and the check runs, only with at least two
   * filled fields: two different positions whose text is not all whitespace.
   */
  function CanCheck(drugs: seq<string>): (ok: bool)
    ensures ok <==> exists i, j :: 0 <= i < j < |drugs| && IsFilled(drugs[i]) && IsFilled(drugs[j])
  {
    Seqs.FilterHasTwo(drugs, IsFilled);
    |ValidDrugs(drugs)| >= 2
  }

  /** The fields without the one at `index`, the others in order: `drugs.filter((_, i) => i !== index)`. */
  function RemoveAt(drugs: seq<string>, index: nat): (r: seq<string>)
    requires index < |drugs|
    ensures |r| == |drugs| - 1
    ensures forall i :: 0 <= i < index ==> r[i] == drugs[i]
    ensures forall i :: index <= i < |r| ==> r[i] == drugs[i + 1]
  {
    drugs[..index] + drugs[index + 1..]
  }

  /** The text shown for a reply: the reply itself, a fallback for an empty one, or the error text. */
  function ResultText(reply: Outcome<Option<string>>): (t: string)
    ensures reply.Threw? ==> t == CheckFailed
    ensures reply.Returned? && reply.value.Some? && reply.value.value != "" ==> t == reply.value.value
    ensures reply.Returned? && (reply.value.None? || reply.value.value == "") ==> t == NoInteractions
    ensures t != ""
  {
    match reply
    case Threw => CheckFailed
    case Returned(text) => if text.Some? && text.value != "" then text.value else NoInteractions
  }

  /** The component's state. */
  class InteractionCheckerForm {
    var drugs: seq<string>
    var result: Option<string>
    var loading: bool

    /** The form always shows at least two fields. */
    ghost predicate Valid()
      reads this
    {
      |drugs| >= 2
    }

    /** Two empty fields, no result, not loading. */
    constructor ()
      ensures Valid()
      ensures drugs == ["", ""] && result == None && !loading
    {
      drugs, result, loading := ["", ""], None, false;
    }

    /** `updateDrug`: copies the list and overwrites the field at `index`. */
    method UpdateDrug(index: nat, value: string)
      requires Valid() && index < |drugs|
      modifies this
      ensures Valid()
      ensures |drugs| == |old(drugs)| && drugs[index] == value
      ensures forall i :: 0 <= i < |drugs| && i != index ==> drugs[i] == old(drugs)[i]
      ensures result == old(result) && loading == old(loading)
    {
      var newDrugs := drugs;
      newDrugs := newDrugs[index := value];
      drugs := newDrugs;
    }

    /** `addField`: one more empty field at the end. */
    method AddField()
      requires Valid()
      modifies this
      ensures Valid()
      ensures drugs == old(drugs) + [""]
      ensures result == old(result) && loading == old(loading)
    {
      drugs := drugs + [""];
    }

    /** `removeField`: the remove control exists only while there are more than two fields. */
    method RemoveField(index: nat)
      requires Valid() && |drugs| > 2 && index < |drugs|
      modifies this
      ensures Valid()
      ensures drugs == RemoveAt(old(drugs), index)
      ensures result == old(result) && loading == old(loading)
    {
      drugs := RemoveAt(drugs, index);
    }

    /**
     * `handleCheck`: with fewer than two filled fields nothing happens.
     * Otherwise the filled names are sent, returned as `request`, and the
     * reply becomes the result; loading is false at the end either way.
     */
    method HandleCheck(reply: Outcome<Option<string>>) returns (request: Option<seq<string>>)
      requires Valid()
      modifies this
      ensures Valid()
      ensures drugs == old(drugs)
      ensures !CanCheck(drugs) ==> request.None? && result == old(result) && loading == old(loading)
      ensures CanCheck(drugs) ==> request == Some(ValidDrugs(drugs)) && result == Some(ResultText(reply)) && !loading
    {
      var validDrugs := ValidDrugs(drugs);
      if |validDrugs| < 2 {
        return None;
      }
      loading := true;
      request := Some(validDrugs);
      match reply {
        case Returned(text) =>
          result := Some(if text.Some? && text.value != "" then text.value else NoInteractions);
        case Threw =>
          result := Some(CheckFailed);
      }
      loading := false;
    }
  }

  /** Whatever the user edits, at least two fields remain. */
  lemma RemoveAtKeepsTwo(drugs: seq<string>, index: nat)
    requires |drugs| > 2 && index < |drugs|
    ensures |RemoveAt(drugs, index)| >= 2
    ensures forall d :: d in RemoveAt(drugs, index) ==> d in drugs
  {
  }

  /** Blank fields never reach the request: adding an empty field leaves the filled names as they were. */
  lemma AddFieldKeepsValidDrugs(drugs: seq<string>)
    ensures ValidDrugs(drugs + [""]) == ValidDrugs(drugs)
  {
    Seqs.FilterConcat(drugs, [""], IsFilled);
    assert JsText.Trim("") == [];
  }
}
