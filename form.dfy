/**
 * The evaluation form of the front end: the answers it sends to the scorer, the
 * mitigation flags and notes, and the sovereignty characteristics the user
 * marks as SHALL or SHOULD; with the operations that change them (toggling a
 * characteristic, importing a saved evaluation, resetting the form) and the
 * queries over them.
 */
module Form {
  import opened Wrappers
  import Catalog
  import Scoring
  import Rating

  /** The requirement level a characteristic is marked with: `'shall'` or `'should'`. */
  datatype Requirement = Shall | Should

  /** The characteristic selection: characteristic key to its requirement level; an unselected key is absent. */
  type SelectionMap = map<string, Requirement>

  /**
   * The form's data. `mitigationDescriptions` is `None` where the object is
   * missing altogether (see `ResetFormDataAsWritten`).
   */
  datatype FormData = FormData(
    technologyName: string,
    description: string,
    criteria: map<string, string>,
    mitigations: map<string, bool>,
    mitigationDescriptions: Option<map<string, string>>,
    selectedSC: SelectionMap)

  /** A parsed evaluation file; a field the file lacks (or holds a falsy value for) is `None`. */
  datatype ImportedData = ImportedData(
    technologyName: Option<string>,
    description: Option<string>,
    criteria: Option<map<string, string>>,
    mitigations: Option<map<string, bool>>,
    mitigationDescriptions: Option<map<string, string>>)

  /** Every SLC key with a blank answer. */
  function BlankAnswers(): (m: map<string, string>)
    ensures m.Keys == set k | k in Catalog.SlcKeys
    ensures forall k :: k in m ==> m[k] == ""
  {
    map k | k in Catalog.SlcKeys :: ""
  }

  /** Every SLC key with its mitigation flag off. */
  function NoMitigations(): (m: map<string, bool>)
    ensures m.Keys == set k | k in Catalog.SlcKeys
    ensures forall k :: k in m ==> !m[k]
  {
    map k | k in Catalog.SlcKeys :: false
  }

  /** The form as the page first shows it. */
  function InitialFormData(): (f: FormData)
    ensures f.technologyName == "" && f.description == ""
    ensures f.criteria.Keys == set k | k in Catalog.SlcKeys && forall k :: k in f.criteria ==> f.criteria[k] == ""
    ensures f.mitigations.Keys == f.criteria.Keys && forall k :: k in f.mitigations ==> !f.mitigations[k]
    ensures f.mitigationDescriptions.Some? && f.mitigationDescriptions.value == f.criteria
    ensures |f.selectedSC| == 0
  {
    FormData("", "", BlankAnswers(), NoMitigations(), Some(BlankAnswers()), map[])
  }

  // ----- Characteristic selection -----

  /** Characteristic `k` is marked with level `t`. */
  predicate Selected(m: SelectionMap, k: string, t: Requirement) {
    k in m && m[k] == t
  }

  /**
   * `toggleSC(k, t)` on the selection: a characteristic already marked `t` is
   * unmarked; otherwise it is marked `t`, replacing any other level.
   */
  function Toggled(m: SelectionMap, k: string, t: Requirement): (r: SelectionMap)
    ensures Selected(r, k, t) <==> !Selected(m, k, t)
    ensures k in r ==> r[k] == t
    ensures Selected(m, k, t) ==> k !in r
    ensures forall j :: j != k ==> (j in r <==> j in m) && (j in r ==> r[j] == m[j])
  {
    if Selected(m, k, t) then m - {k} else m[k := t]
  }

  /** Toggling a characteristic that was not marked, twice with the same level, restores the selection. */
  lemma ToggleTwiceRestores(m: SelectionMap, k: string, t: Requirement)
    requires k !in m
    ensures Toggled(Toggled(m, k, t), k, t) == m
  {
    var r := Toggled(Toggled(m, k, t), k, t);
    assert r.Keys == m.Keys;
  }

  /**
   * A toggle changes the number of marked characteristics by one up when `k` was
   * unmarked, by one down when `k` was marked `t`, and not at all when `k` was
   * marked with the other level.
   */
  lemma ToggleCount(m: SelectionMap, k: string, t: Requirement)
    ensures k !in m ==> |Toggled(m, k, t)| == |m| + 1
    ensures Selected(m, k, t) ==> |Toggled(m, k, t)| == |m| - 1
    ensures k in m && m[k] != t ==> |Toggled(m, k, t)| == |m|
  {
    var r := Toggled(m, k, t);
    if k !in m {
      assert r.Keys == m.Keys + {k};
    } else if m[k] == t {
      assert r.Keys == m.Keys - {k};
    } else {
      assert r.Keys == m.Keys;
    }
  }

  // ----- Importing a saved evaluation -----

  /** `{ ...base, ...top }`: the keys of both, the value of `top` where both have one. */
  function Overlay<V>(base: map<string, V>, top: map<string, V>): (r: map<string, V>)
    ensures r.Keys == base.Keys + top.Keys
    ensures forall k :: k in top ==> r[k] == top[k]
    ensures forall k :: k in base && k !in top ==> r[k] == base[k]
  {
    base + top
  }

  /** Overlaying the same map a second time changes nothing. */
  lemma OverlayIdempotent<V>(base: map<string, V>, top: map<string, V>)
    ensures Overlay(Overlay(base, top), top) == Overlay(base, top)
  {
  }

  /**
   * The merge step of `importData`: a file without criteria is rejected;
   * otherwise the name and description are taken from the file (blank when it
   * has none), its criteria override the form's, and its mitigations and their
   * notes are merged in only when it has them. The selection is left alone.
   */
  function MergeImport(f: FormData, d: ImportedData): (r: Option<FormData>)
    ensures r.None? <==> d.criteria.None?
    ensures r.Some? ==>
      && r.value.technologyName == d.technologyName.GetOr("")
      && r.value.description == d.description.GetOr("")
      && r.value.selectedSC == f.selectedSC
    ensures r.Some? ==> r.value.criteria.Keys == f.criteria.Keys + d.criteria.value.Keys
    ensures r.Some? ==> forall k :: k in d.criteria.value ==> r.value.criteria[k] == d.criteria.value[k]
    ensures r.Some? ==> forall k :: k in f.criteria && k !in d.criteria.value ==> r.value.criteria[k] == f.criteria[k]
    ensures r.Some? ==>
      r.value.mitigations == if d.mitigations.Some? then Overlay(f.mitigations, d.mitigations.value) else f.mitigations
    ensures r.Some? ==>
      r.value.mitigationDescriptions
        == if d.mitigationDescriptions.Some?
           then Some(Overlay(f.mitigationDescriptions.GetOr(map[]), d.mitigationDescriptions.value))
           else f.mitigationDescriptions
  {
    match d.criteria
    case None => None
    case Some(criteria) =>
      var mitigations := if d.mitigations.Some? then Overlay(f.mitigations, d.mitigations.value) else f.mitigations;
      var notes :=
        if d.mitigationDescriptions.Some?
        then Some(Overlay(f.mitigationDescriptions.GetOr(map[]), d.mitigationDescriptions.value))
        else f.mitigationDescriptions;
      Some(FormData(
        d.technologyName.GetOr(""), d.description.GetOr(""),
        Overlay(f.criteria, criteria), mitigations, notes, f.selectedSC))
  }

  /** Importing the same file twice leaves the form as importing it once does. */
  lemma ImportTwice(f: FormData, d: ImportedData)
    requires d.criteria.Some?
    ensures MergeImport(MergeImport(f, d).value, d) == MergeImport(f, d)
  {
    OverlayIdempotent(f.criteria, d.criteria.value);
    if d.mitigations.Some? {
      OverlayIdempotent(f.mitigations, d.mitigations.value);
    }
    if d.mitigationDescriptions.Some? {
      OverlayIdempotent(f.mitigationDescriptions.GetOr(map[]), d.mitigationDescriptions.value);
    }
  }

  const ImportError: string := "Error importing file: Invalid file format: missing criteria"

  // ----- Resetting the form -----

  /**
   * The data `resetForm` writes, as written: it rebuilds the form without a
   * `mitigationDescriptions` object.
   */
  function ResetFormDataAsWritten(): (f: FormData)
    ensures f == InitialFormData().(mitigationDescriptions := None)
  {
    FormData("", "", BlankAnswers(), NoMitigations(), None, map[])
  }

  /** Resetting as written does not give back the initial form: the mitigation notes are lost, not blanked. */
  lemma ResetAsWrittenLosesNotes()
    ensures ResetFormDataAsWritten().mitigationDescriptions.None?
    ensures |ResetFormDataAsWritten().selectedSC| == 0
    ensures InitialFormData().mitigationDescriptions == Some(BlankAnswers())
    ensures ResetFormDataAsWritten() != InitialFormData()
  {
  }

  /** The form after a reset as evidently intended: the initial form, with no characteristic marked. */
  function ResetFormData(): (f: FormData)
    ensures f == InitialFormData()
    ensures |f.selectedSC| == 0
    ensures f.mitigationDescriptions == Some(BlankAnswers())
    ensures forall k :: k in f.criteria ==> f.criteria[k] == ""
  {
    FormData("", "", BlankAnswers(), NoMitigations(), Some(BlankAnswers()), map[])
  }

  // ----- Rating classes -----

  /** The CSS class of each rating band. */
  function CssClass(b: Rating.Band): string {
    match b
    case Excellent => "rating-excellent"
    case High => "rating-high"
    case Moderate => "rating-moderate"
    case Low => "rating-low"
    case VeryLow => "rating-very-low"
  }

  /** `getRatingClass`. */
  function RatingClass(percentage: real): (c: string)
    ensures c == CssClass(Rating.BandOf(percentage))
  {
    Rating.ThresholdsReached(percentage);
    if percentage >= 90.0 then "rating-excellent"
    else if percentage >= 75.0 then "rating-high"
    else if percentage >= 60.0 then "rating-moderate"
    else if percentage >= 40.0 then "rating-low"
    else "rating-very-low"
  }

  /** The page colours a percentage by the same band the scorer rates it with. */
  lemma RatingClassMatchesRating(percentage: real)
    ensures RatingClass(percentage) == CssClass(Rating.BandOf(percentage))
    ensures Rating.SovereigntyRating(percentage) == Rating.Label(Rating.BandOf(percentage))
  {
    Rating.ThresholdsReached(percentage);
    Rating.SovereigntyRatingBands(percentage);
  }

  // ----- The form component -----

  /** The form component's state: `formData`, the last results and the last error. */
  class EvaluationForm {
    var formData: FormData
    var results: Option<Scoring.Report>
    var error: Option<string>

    constructor()
      ensures formData == InitialFormData() && results == None && error == None
    {
      formData := InitialFormData();
      results := None;
      error := None;
    }

    /** `toggleSC`: only the selection changes, and only at `k`. */
    method ToggleSC(k: string, t: Requirement)
      modifies this
      ensures formData == old(formData).(selectedSC := Toggled(old(formData.selectedSC), k, t))
      ensures results == old(results) && error == old(error)
      ensures IsSCSelected(k, t) <==> !old(IsSCSelected(k, t))
      ensures old(k !in formData.selectedSC) ==> SelectedSCCount() == old(SelectedSCCount()) + 1
      ensures old(IsSCSelected(k, t)) ==> SelectedSCCount() == old(SelectedSCCount()) - 1
      ensures old(k in formData.selectedSC && !IsSCSelected(k, t)) ==> SelectedSCCount() == old(SelectedSCCount())
    {
      ToggleCount(formData.selectedSC, k, t);
      var m := formData.selectedSC;
      if k in m && m[k] == t {
        m := m - {k};
      } else {
        m := m[k := t];
      }
      formData := formData.(selectedSC := m);
    }

    /** `isSCSelected`. */
    function IsSCSelected(k: string, t: Requirement): (b: bool)
      reads this
      ensures b ==> k in formData.selectedSC
      ensures b ==> forall u: Requirement :: u != t ==> !Selected(formData.selectedSC, k, u)
      ensures k in formData.selectedSC && formData.selectedSC[k] == t ==> b
    {
      Selected(formData.selectedSC, k, t)
    }

    /** `getSelectedSCCount`: the number of marked characteristics. */
    function SelectedSCCount(): (n: nat)
      reads this
      ensures n == |formData.selectedSC.Keys|
      ensures n == 0 <==> formData.selectedSC == map[]
    {
      |formData.selectedSC|
    }

    /**
     * `importData` once the file has been read and parsed: either the merge
     * succeeds and replaces the form's data, or the error is set and the data
     * stays as it was.
     */
    method ImportData(d: ImportedData) returns (ok: bool)
      modifies this
      ensures ok <==> d.criteria.Some?
      ensures ok ==> formData == MergeImport(old(formData), d).value && error == old(error)
      ensures !ok ==> formData == old(formData) && error == Some(ImportError)
      ensures results == old(results)
    {
      if d.criteria.None? {
        error := Some(ImportError);
        return false;
      }
      var f := formData;
      f := f.(technologyName := d.technologyName.GetOr(""));
      f := f.(description := d.description.GetOr(""));
      f := f.(criteria := f.criteria + d.criteria.value);
      if d.mitigations.Some? {
        f := f.(mitigations := f.mitigations + d.mitigations.value);
      }
      if d.mitigationDescriptions.Some? {
        f := f.(mitigationDescriptions := Some(f.mitigationDescriptions.GetOr(map[]) + d.mitigationDescriptions.value));
      }
      formData := f;
      ok := true;
    }

    /** `resetForm` as evidently intended: the initial form, no results, no error. */
    method ResetForm()
      modifies this
      ensures formData == ResetFormData() && results == None && error == None
      ensures SelectedSCCount() == 0
    {
      formData := ResetFormData();
      results := None;
      error := None;
    }
  }
}
