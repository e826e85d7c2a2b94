/**
 * The three static criteria tables of the scoring service: Table 1 (technology),
 * Table 2 (legal and organisational) and the SLC table (software, licensing and
 * compliance). Each criterion is either a set of named options with integer
 * scores or a bounded number.
 */
module Catalog {
  import opened Wrappers

  /** One answer a user may pick for a criterion, keyed as in the request; `caption` is the source's label. */
  datatype Choice = Choice(key: string, caption: string, score: int)

  datatype Kind =
    | Options(choices: seq<Choice>)
    | Number(min: int, max: int)

  datatype Criterion = Criterion(key: string, name: string, weight: nat, kind: Kind)

  /** The option keyed `key`, if the criterion offers one. */
  function Lookup(choices: seq<Choice>, key: string): (r: Option<Choice>)
    ensures r.Some? ==> r.value in choices && r.value.key == key
    ensures r.None? ==> forall i :: 0 <= i < |choices| ==> choices[i].key != key
  {
    if choices == [] then None
    else if choices[0].key == key then Some(choices[0])
    else Lookup(choices[1..], key)
  }

  /** The best score any option of the criterion gives. */
  function MaxChoiceScore(choices: seq<Choice>): (m: int)
    requires |choices| > 0
    ensures forall i :: 0 <= i < |choices| ==> choices[i].score <= m
    ensures exists i :: 0 <= i < |choices| && choices[i].score == m
  {
    if |choices| == 1 then choices[0].score
    else
      var rest := MaxChoiceScore(choices[1..]);
      assert forall i :: 1 <= i < |choices| ==> choices[i] == choices[1..][i - 1];
      if choices[0].score >= rest then choices[0].score else rest
  }

  predicate DistinctChoiceKeys(choices: seq<Choice>) {
    forall i, j :: 0 <= i < j < |choices| ==> choices[i].key != choices[j].key
  }

  /**
   * What every catalogued criterion satisfies: an option criterion offers at
   * least one option, under distinct keys, none scoring below 0; a numeric
   * criterion has a non-empty range starting at 0 or above.
   */
  predicate WellFormed(c: Criterion) {
    match c.kind
    case Options(choices) =>
      |choices| > 0 && DistinctChoiceKeys(choices)
      && forall i :: 0 <= i < |choices| ==> choices[i].score >= 0
    case Number(lo, hi) => 0 <= lo <= hi
  }

  predicate DistinctKeys(cs: seq<Criterion>) {
    forall i, j :: 0 <= i < j < |cs| ==> cs[i].key != cs[j].key
  }

  predicate WellFormedTable(cs: seq<Criterion>) {
    DistinctKeys(cs) && forall i :: 0 <= i < |cs| ==> WellFormed(cs[i])
  }

  /**
   * A table the scorer may walk with the fixed maximum of 3 points per criterion:
   * option criteria only, none of whose options scores above 3.
   */
  predicate ThreePointTable(cs: seq<Criterion>) {
    WellFormedTable(cs)
    && forall i :: 0 <= i < |cs| ==> cs[i].kind.Options? && MaxChoiceScore(cs[i].kind.choices) <= 3
  }

  function ThreeLevels(high: string, mid: string, low: string, labelHigh: string, labelMid: string, labelLow: string): seq<Choice> {
    [Choice(high, labelHigh, 3), Choice(mid, labelMid, 2), Choice(low, labelLow, 1)]
  }

  const LocationChoices: seq<Choice> :=
    ThreeLevels("local", "eu", "foreign", "Local/On-premise", "European Union", "Foreign (non-EU)")

  /** Table 1: technology criteria. */
  const TechnicalCriteria: seq<Criterion> := [
    Criterion("dataStorage", "Data Storage Location", 1, Options(LocationChoices)),
    Criterion("dataProcessing", "Data Processing Location", 1, Options(LocationChoices)),
    Criterion("openSource", "Open Source", 1, Options(ThreeLevels(
      "full", "partial", "closed", "Fully Open Source", "Partially Open Source", "Closed Source"))),
    Criterion("interoperability", "Interoperability", 1, Options(ThreeLevels(
      "high", "medium", "low", "High (Open Standards)", "Medium", "Low (Proprietary)"))),
    Criterion("encryption", "Encryption", 1, Options(ThreeLevels(
      "e2e", "transit", "none", "End-to-End", "In Transit Only", "None/Weak")))
  ]

  /** Table 2: legal and organisational criteria. */
  const LegalCriteria: seq<Criterion> := [
    Criterion("providerLocation", "Provider Location", 1, Options(ThreeLevels(
      "national", "eu", "foreign", "National", "European Union", "Foreign (non-EU)"))),
    Criterion("dataGovernance", "Data Governance", 1, Options(ThreeLevels(
      "gdpr_full", "gdpr_partial", "non_compliant",
      "GDPR Compliant (Full)", "GDPR Compliant (Partial)", "Non-Compliant"))),
    Criterion("contractualControl", "Contractual Control", 1, Options(ThreeLevels(
      "full", "shared", "limited", "Full Control", "Shared Control", "Limited Control"))),
    Criterion("auditability", "Auditability", 1, Options(ThreeLevels(
      "full", "partial", "opaque", "Full Transparency", "Partial Transparency", "Opaque"))),
    Criterion("certifications", "Security Certifications", 1, Options(ThreeLevels(
      "multiple", "some", "none", "Multiple EU Certifications", "Some Certifications", "No Certifications")))
  ]

  const CountryChoices: seq<Choice> := [
    Choice("whitelist", "White-list Country", 10),
    Choice("greylist", "Grey-list Country", 5),
    Choice("blacklist", "Black-list Country", 1)
  ]

  /** The SLC criterion `slc2`, software country of origin. */
  const Slc2: Criterion := Criterion("slc2", "SLC2: Software Country of Origin", 1, Options(CountryChoices))

  /** The one numeric criterion, `slc5`: average months between updates, 0 to 12. */
  const Slc5: Criterion := Criterion("slc5", "SLC5: Update Frequency (months)", 1, Number(0, 12))

  /** The SLC table: software, licensing and compliance criteria, in the source's order. */
  const SlcCriteria: seq<Criterion> := [
    Criterion("slc1", "SLC1: Software Ownership", 1, Options([
      Choice("ngo", "Non-Governmental Organization (NGO)", 3),
      Choice("go", "Governmental Organization (GO)", 2),
      Choice("po", "Private Organization (PO)", 1)])),
    Slc2,
    Criterion("slc3", "SLC3: Software License", 1, Options([
      Choice("public_domain", "Public Domain", 5),
      Choice("permissive", "Permissive (MIT, Apache, BSD)", 4),
      Choice("lgpl", "LGPL/Intermediate", 3),
      Choice("copyleft", "Copyleft (GPL)", 2),
      Choice("proprietary", "Commercial/Proprietary", 1)])),
    Slc5,
    Criterion("slc33", "SLC33: Data Country of Origin", 1, Options(CountryChoices)),
    Criterion("slc34", "SLC34: Data License", 1, Options([
      Choice("public_domain", "Public Domain", 5),
      Choice("permissive", "Permissive", 4),
      Choice("lgpl", "LGPL/Intermediate", 3),
      Choice("copyleft", "Copyleft", 2),
      Choice("proprietary", "Commercial/Proprietary", 1)])),
    Criterion("slc11", "SLC11: Community and Ecosystem", 1, Options([
      Choice("huge", ">100k contributors (Widespread use)", 4),
      Choice("large", ">10k contributors (Industry-supported)", 3),
      Choice("medium", ">1k contributors (Research/University)", 2),
      Choice("small", "<1k contributors (Private project)", 1)])),
    Criterion("slc12", "SLC12: Regulatory and Legal Compliance", 1, Options([
      Choice("comprehensive_maintained", "Comprehensive analysis (maintained)", 5),
      Choice("comprehensive", "Comprehensive analysis (not maintained)", 4),
      Choice("partial_maintained", "Partial analysis (maintained)", 3),
      Choice("partial", "Partial analysis (not maintained)", 2),
      Choice("none", "No compliance analysis", 1)])),
    Criterion("slc13", "SLC13: Funding and Sustainability", 1, Options([
      Choice("no_funding", "No funding needed", 4),
      Choice("unaligned", "Has unaligned funding", 3),
      Choice("aligned", "Has company-aligned funding", 2),
      Choice("none", "No funding (needed)", 1)])),
    Criterion("slc16", "SLC16: Interoperability", 1, Options([
      Choice("enterprise", "Enterprise/Universal", 5),
      Choice("domain", "Domain/Integrated", 4),
      Choice("functional", "Functional/Distributed", 3),
      Choice("connected", "Connected/Peer-to-Peer", 2),
      Choice("isolated", "Isolated/Manual", 1)])),
    Criterion("slc17", "SLC17: Development Processes", 1, Options([
      Choice("all_known", "All processes known", 4),
      Choice("most_known", "Most processes known", 3),
      Choice("most_unknown", "Most processes unknown", 2),
      Choice("all_unknown", "All processes unknown", 1)])),
    Criterion("slc23", "SLC23: AI Model Retraining", 1, Options([
      Choice("internal", "Completely internally trained", 3),
      Choice("retrained", "Retrained pre-trained model", 2),
      Choice("external", "Externally trained model", 1)])),
    Criterion("slc24", "SLC24: External APIs and Services", 1, Options([
      Choice("one", "1 dependency", 4),
      Choice("few", "2-4 dependencies", 3),
      Choice("some", "5-9 dependencies", 2),
      Choice("many", "≥10 dependencies", 1)])),
    Criterion("slc25", "SLC25: Explainability", 1, Options([
      Choice("whitebox", "White/Grey-box (explainable)", 3),
      Choice("blackbox_external", "Black-box (externally explainable)", 2),
      Choice("blackbox_consistent", "Black-box (consistent output)", 1),
      Choice("blackbox_opaque", "Black-box (not explainable)", 0)]))
  ]

  datatype Definitions = Definitions(technical: seq<Criterion>, legal: seq<Criterion>, slc: seq<Criterion>)

  /** The catalog handed to the front end: the three tables, each well formed. */
  function CriteriaDefinitions(): (d: Definitions)
    ensures ThreePointTable(d.technical) && |d.technical| == 5
    ensures ThreePointTable(d.legal) && |d.legal| == 5
    ensures WellFormedTable(d.slc) && |d.slc| == 14
  {
    TablesWellFormed();
    Definitions(TechnicalCriteria, LegalCriteria, SlcCriteria)
  }

  /** Keys of a table, in order. */
  function KeysOf(cs: seq<Criterion>): (ks: seq<string>)
    ensures |ks| == |cs| && forall i :: 0 <= i < |cs| ==> ks[i] == cs[i].key
  {
    seq(|cs|, i requires 0 <= i < |cs| => cs[i].key)
  }

  predicate DistinctStrings(ks: seq<string>) {
    forall i, j :: 0 <= i < j < |ks| ==> ks[i] != ks[j]
  }

  const TechnicalKeys: seq<string> :=
    ["dataStorage", "dataProcessing", "openSource", "interoperability", "encryption"]
  const LegalKeys: seq<string> :=
    ["providerLocation", "dataGovernance", "contractualControl", "auditability", "certifications"]
  /** The SLC keys, which are also the keys of the form's criteria and mitigations. */
  const SlcKeys: seq<string> :=
    ["slc1", "slc2", "slc3", "slc5", "slc33", "slc34", "slc11",
     "slc12", "slc13", "slc16", "slc17", "slc23", "slc24", "slc25"]

  lemma TechnicalKeysListed()
    ensures KeysOf(TechnicalCriteria) == TechnicalKeys && DistinctStrings(TechnicalKeys)
  {
  }

  lemma LegalKeysListed()
    ensures KeysOf(LegalCriteria) == LegalKeys && DistinctStrings(LegalKeys)
  {
  }

  lemma SlcKeysListed()
    ensures KeysOf(SlcCriteria) == SlcKeys
  {
  }

  lemma SlcKeysDistinct()
    ensures DistinctStrings(SlcKeys)
  {
  }

  lemma DistinctByKeys(cs: seq<Criterion>)
    requires DistinctStrings(KeysOf(cs))
    ensures DistinctKeys(cs)
  {
    var ks := KeysOf(cs);
    forall i, j | 0 <= i < j < |cs| ensures cs[i].key != cs[j].key {
      assert ks[i] != ks[j];
    }
  }

  lemma TechnicalEachWellFormed()
    ensures forall i :: 0 <= i < |TechnicalCriteria| ==> WellFormed(TechnicalCriteria[i])
  {
  }

  lemma LegalEachWellFormed()
    ensures forall i :: 0 <= i < |LegalCriteria| ==> WellFormed(LegalCriteria[i])
  {
  }

  lemma SlcEachWellFormed()
    ensures forall i :: 0 <= i < |SlcCriteria| ==> WellFormed(SlcCriteria[i])
  {
    SlcFirstHalfWellFormed();
    SlcSecondHalfWellFormed();
  }

  lemma SlcFirstHalfWellFormed()
    ensures forall i :: 0 <= i < 7 ==> WellFormed(SlcCriteria[i])
  {
  }

  lemma SlcSecondHalfWellFormed()
    ensures forall i :: 7 <= i < |SlcCriteria| ==> WellFormed(SlcCriteria[i])
  {
  }

  lemma TechnicalThreePoints()
    ensures forall i :: 0 <= i < |TechnicalCriteria| ==>
      TechnicalCriteria[i].kind.Options? && MaxChoiceScore(TechnicalCriteria[i].kind.choices) <= 3
  {
  }

  lemma LegalThreePoints()
    ensures forall i :: 0 <= i < |LegalCriteria| ==>
      LegalCriteria[i].kind.Options? && MaxChoiceScore(LegalCriteria[i].kind.choices) <= 3
  {
  }

  lemma TechnicalWellFormed()
    ensures ThreePointTable(TechnicalCriteria)
  {
    TechnicalKeysListed();
    DistinctByKeys(TechnicalCriteria);
    TechnicalEachWellFormed();
    TechnicalThreePoints();
  }

  lemma LegalWellFormed()
    ensures ThreePointTable(LegalCriteria)
  {
    LegalKeysListed();
    DistinctByKeys(LegalCriteria);
    LegalEachWellFormed();
    LegalThreePoints();
  }

  lemma SlcWellFormed()
    ensures WellFormedTable(SlcCriteria)
  {
    SlcKeysListed();
    SlcKeysDistinct();
    DistinctByKeys(SlcCriteria);
    SlcEachWellFormed();
  }

  /** The lowest option of `slc25`, an opaque black box, scores exactly 0; every other option scores more. */
  lemma Slc25LowestScoresZero()
    ensures SlcCriteria[13].key == "slc25" && SlcCriteria[13].kind.Options?
    ensures var choices := SlcCriteria[13].kind.choices;
      |choices| == 4 && choices[3].key == "blackbox_opaque" && choices[3].score == 0
      && forall i :: 0 <= i < 3 ==> choices[i].score > 0
  {
  }

  lemma TablesWellFormed()
    ensures ThreePointTable(TechnicalCriteria)
    ensures ThreePointTable(LegalCriteria)
    ensures WellFormedTable(SlcCriteria)
  {
    TechnicalWellFormed();
    LegalWellFormed();
    SlcWellFormed();
  }
}
