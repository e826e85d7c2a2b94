/**
 * What `calculateScore` reports for particular requests: the empty request and
 * a request that answers one criterion.
 */
module ScoringCases {
  import opened Wrappers
  import opened Catalog
  import opened Scoring
  import Rating

  /**
   * A request that answers only criterion `j` of a table with distinct keys: the
   * table's score is that criterion's score and its details hold that one entry.
   */
  lemma SingleAnswer(rule: TableRule, cs: seq<Criterion>, x: Selections, j: nat)
    requires ScorableTable(rule, cs) && AllParse(cs, x) && DistinctKeys(cs)
    requires j < |cs| && x.Keys == {cs[j].key} && Answered(cs[j], x)
    ensures TallyOf(rule, cs, x).score == Contribute(rule, cs[j], x).score
    ensures TallyOf(rule, cs, x).details == map[cs[j].key := Contribute(rule, cs[j], x).detail.value]
  {
    OnlyAnswered(rule, cs, x, j);
    TallyDetailKeys(rule, cs, x);
    TallyDetailEntries(rule, cs, x, j);
    assert AnsweredKeys(cs, x) == {cs[j].key};
  }

  /** A section is its table's tally with the tally's percentage to one decimal. */
  lemma SectionOfTally(rule: TableRule, cs: seq<Criterion>, x: Selections, t: Tally)
    requires ScorableTable(rule, cs) && AllParse(cs, x) && TallyOf(rule, cs, x) == t
    ensures SectionOf(rule, cs, x) == Section(t.score, t.max, RoundTenth(Percentage(t.score, t.max)), t.details)
  {
  }

  lemma ReportFromNothing()
    ensures ReportFrom(Section(0, 15, 0.0, map[]), Section(0, 15, 0.0, map[]), Section(0, 65, 0.0, map[]))
         == Report(0, 95, 0.0, Section(0, 15, 0.0, map[]), Section(0, 15, 0.0, map[]), Section(0, 65, 0.0, map[]),
                   "Very Low Sovereignty")
  {
    assert Percentage(0, 95) == 0.0;
    assert RoundTenth(0.0) == 0.0;
  }

  lemma ReportFromWhiteList(d: map<string, Detail>)
    ensures ReportFrom(Section(0, 15, 0.0, map[]), Section(0, 15, 0.0, map[]), Section(10, 65, 15.4, d))
         == Report(10, 95, 10.5, Section(0, 15, 0.0, map[]), Section(0, 15, 0.0, map[]), Section(10, 65, 15.4, d),
                   "Very Low Sovereignty")
  {
  }

  lemma Percentages()
    ensures RoundTenth(Percentage(0, 15)) == 0.0 && RoundTenth(Percentage(0, 65)) == 0.0
    ensures RoundTenth(Percentage(10, 65)) == 15.4
  {
  }

  lemma WhiteListContribution(x: Selections)
    requires x.Keys == {"slc2"} && x["slc2"] == "whitelist"
    ensures Contribute(SlcRule, Slc2, x) == Contribution(10, 10, Some(Detail("SLC2: Software Country of Origin", "White-list Country", 10)))
  {
  }

  /** No key of Table 1 or Table 2 is an SLC key. */
  lemma SlcKeysNotInTables12()
    ensures forall i, k :: 0 <= i < |TechnicalCriteria| && k in SlcKeys ==> TechnicalCriteria[i].key != k
    ensures forall i, k :: 0 <= i < |LegalCriteria| && k in SlcKeys ==> LegalCriteria[i].key != k
  {
    TechnicalKeysListed();
    LegalKeysListed();
  }

  /** A request that answers only SLC criteria scores 0 of 15 in each of Tables 1 and 2. */
  lemma Tables12Unanswered(x: Selections)
    requires forall k :: k in x ==> x[k] == "" || k in SlcKeys
    ensures ScorableTable(ThreePerCriterion, TechnicalCriteria) && AllParse(TechnicalCriteria, x)
    ensures ScorableTable(ThreePerCriterion, LegalCriteria) && AllParse(LegalCriteria, x)
    ensures TallyOf(ThreePerCriterion, TechnicalCriteria, x) == Tally(0, 15, map[])
    ensures TallyOf(ThreePerCriterion, LegalCriteria, x) == Tally(0, 15, map[])
  {
    TechnicalTable(x);
    LegalTable(x);
    SlcKeysNotInTables12();
    NothingAnswered(ThreePerCriterion, TechnicalCriteria, x);
    NothingAnswered(ThreePerCriterion, LegalCriteria, x);
  }

  lemma SlcUnanswered(x: Selections)
    requires forall k :: k in x ==> x[k] == ""
    ensures ScorableTable(SlcRule, SlcCriteria) && AllParse(SlcCriteria, x)
    ensures TallyOf(SlcRule, SlcCriteria, x) == Tally(0, 65, map[])
  {
    SlcTable(x);
    NothingAnswered(SlcRule, SlcCriteria, x);
  }

  lemma SlcWhiteList(x: Selections)
    requires x.Keys == {"slc2"} && x["slc2"] == "whitelist"
    ensures ScorableTable(SlcRule, SlcCriteria) && AllParse(SlcCriteria, x)
    ensures TallyOf(SlcRule, SlcCriteria, x)
         == Tally(10, 65, map["slc2" := Detail("SLC2: Software Country of Origin", "White-list Country", 10)])
  {
    SlcTable(x);
    SlcWellFormed();
    CatalogShape();
    WhiteListContribution(x);
    assert Answered(Slc2, x);
    SingleAnswer(SlcRule, SlcCriteria, x, 1);
  }

  /** The report of three sections in terms of their tallies. */
  lemma ReportOfTallies(x: Selections, technical: Tally, legal: Tally, slc: Tally)
    requires NumericAnswersParse(x)
    requires ScorableTable(ThreePerCriterion, TechnicalCriteria) && AllParse(TechnicalCriteria, x)
    requires ScorableTable(ThreePerCriterion, LegalCriteria) && AllParse(LegalCriteria, x)
    requires ScorableTable(SlcRule, SlcCriteria) && AllParse(SlcCriteria, x)
    requires TallyOf(ThreePerCriterion, TechnicalCriteria, x) == technical
    requires TallyOf(ThreePerCriterion, LegalCriteria, x) == legal
    requires TallyOf(SlcRule, SlcCriteria, x) == slc
    ensures ReportOf(x) == ReportFrom(
      Section(technical.score, technical.max, RoundTenth(Percentage(technical.score, technical.max)), technical.details),
      Section(legal.score, legal.max, RoundTenth(Percentage(legal.score, legal.max)), legal.details),
      Section(slc.score, slc.max, RoundTenth(Percentage(slc.score, slc.max)), slc.details))
  {
    SectionOfTally(ThreePerCriterion, TechnicalCriteria, x, technical);
    SectionOfTally(ThreePerCriterion, LegalCriteria, x, legal);
    SectionOfTally(SlcRule, SlcCriteria, x, slc);
  }

  /** A request whose answers are all empty (the empty request among them) scores 0 of 95 and is rated Very Low Sovereignty. */
  lemma EmptyRequest(x: Selections)
    requires forall k :: k in x ==> x[k] == ""
    ensures ReportOf(x) == Report(0, 95, 0.0,
      Section(0, 15, 0.0, map[]), Section(0, 15, 0.0, map[]), Section(0, 65, 0.0, map[]),
      "Very Low Sovereignty")
  {
    EmptySections(x);
    ReportFromNothing();
  }

  /** With every answer empty, each section is empty and scores 0 per cent. */
  lemma EmptySections(x: Selections)
    requires forall k :: k in x ==> x[k] == ""
    ensures NumericAnswersParse(x)
    ensures ReportOf(x) == ReportFrom(Section(0, 15, 0.0, map[]), Section(0, 15, 0.0, map[]), Section(0, 65, 0.0, map[]))
  {
    Tables12Unanswered(x);
    SlcUnanswered(x);
    ReportOfTallies(x, Tally(0, 15, map[]), Tally(0, 15, map[]), Tally(0, 65, map[]));
    Percentages();
  }

  /**
   * Answering only `slc2`, with a white-list country: 10 points of 95, one SLC
   * details entry, 10.5 per cent overall and 15.4 in the SLC section.
   */
  lemma WhiteListCountry(x: Selections)
    requires x.Keys == {"slc2"} && x["slc2"] == "whitelist"
    ensures ReportOf(x) == Report(10, 95, 10.5,
      Section(0, 15, 0.0, map[]), Section(0, 15, 0.0, map[]),
      Section(10, 65, 15.4, map["slc2" := Detail("SLC2: Software Country of Origin", "White-list Country", 10)]),
      "Very Low Sovereignty")
  {
    assert "slc2" in SlcKeys && "slc5" !in x;
    Tables12Unanswered(x);
    SlcWhiteList(x);
    ReportOfTallies(x, Tally(0, 15, map[]), Tally(0, 15, map[]),
      Tally(10, 65, map["slc2" := Detail("SLC2: Software Country of Origin", "White-list Country", 10)]));
    Percentages();
    ReportFromWhiteList(map["slc2" := Detail("SLC2: Software Country of Origin", "White-list Country", 10)]);
  }
}
