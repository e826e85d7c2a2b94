/**
 * The rating bands of the scoring service and the reference they are checked
 * against: a band is the number of thresholds (40, 60, 75, 90 percent) that a
 * percentage reaches.
 */
module Rating {

  datatype Band = VeryLow | Low | Moderate | High | Excellent

  /** The lower bounds of the bands above "Very Low", in increasing order. */
  const Thresholds: seq<real> := [40.0, 60.0, 75.0, 90.0]

  /** How many of `ts` the percentage `p` reaches. */
  function CountReached(ts: seq<real>, p: real): (n: nat)
    ensures n <= |ts|
  {
    if ts == [] then 0 else (if p >= ts[0] then 1 else 0) + CountReached(ts[1..], p)
  }

  function BandOfRank(n: nat): Band
    requires n <= 4
  {
    [VeryLow, Low, Moderate, High, Excellent][n]
  }

  function Rank(b: Band): nat {
    match b
    case VeryLow => 0
    case Low => 1
    case Moderate => 2
    case High => 3
    case Excellent => 4
  }

  /** The reference band of a percentage: one step up per threshold reached. */
  function BandOf(p: real): Band {
    BandOfRank(CountReached(Thresholds, p))
  }

  function Label(b: Band): string {
    match b
    case Excellent => "Excellent Sovereignty"
    case High => "High Sovereignty"
    case Moderate => "Moderate Sovereignty"
    case Low => "Low Sovereignty"
    case VeryLow => "Very Low Sovereignty"
  }

  /** The rating the scoring service reports for a percentage, checked from the top band down. */
  function SovereigntyRating(percentage: real): string {
    if percentage >= 90.0 then "Excellent Sovereignty"
    else if percentage >= 75.0 then "High Sovereignty"
    else if percentage >= 60.0 then "Moderate Sovereignty"
    else if percentage >= 40.0 then "Low Sovereignty"
    else "Very Low Sovereignty"
  }

  /** The thresholds reached by `p`, spelled out for the four bounds. */
  lemma ThresholdsReached(p: real)
    ensures CountReached(Thresholds, p)
      == (if p >= 40.0 then 1 else 0) + (if p >= 60.0 then 1 else 0)
       + (if p >= 75.0 then 1 else 0) + (if p >= 90.0 then 1 else 0)
  {
    assert Thresholds[1..] == [60.0, 75.0, 90.0];
    assert [60.0, 75.0, 90.0][1..] == [75.0, 90.0];
    assert [75.0, 90.0][1..] == [90.0];
    assert CountReached([90.0], p) == if p >= 90.0 then 1 else 0;
    assert CountReached([75.0, 90.0], p) == (if p >= 75.0 then 1 else 0) + CountReached([90.0], p);
    assert CountReached([60.0, 75.0, 90.0], p) == (if p >= 60.0 then 1 else 0) + CountReached([75.0, 90.0], p);
  }

  /** The rating chain tests exactly the reference thresholds: its label is the label of the band. */
  lemma SovereigntyRatingBands(p: real)
    ensures SovereigntyRating(p) == Label(BandOf(p))
  {
    ThresholdsReached(p);
  }

  lemma {:induction false} CountReachedMonotone(ts: seq<real>, p: real, q: real)
    requires p <= q
    ensures CountReached(ts, p) <= CountReached(ts, q)
    decreases |ts|
  {
    if ts != [] {
      CountReachedMonotone(ts[1..], p, q);
    }
  }

  /** A higher percentage never gets a lower band. */
  lemma BandMonotone(p: real, q: real)
    requires p <= q
    ensures Rank(BandOf(p)) <= Rank(BandOf(q))
  {
    CountReachedMonotone(Thresholds, p, q);
  }

  /** The rating of a higher percentage is never a lower band's label. */
  lemma SovereigntyRatingMonotone(p: real, q: real)
    requires p <= q
    ensures exists a: Band, b: Band :: SovereigntyRating(p) == Label(a) && SovereigntyRating(q) == Label(b) && Rank(a) <= Rank(b)
  {
    SovereigntyRatingBands(p);
    SovereigntyRatingBands(q);
    BandMonotone(p, q);
    assert SovereigntyRating(p) == Label(BandOf(p)) && SovereigntyRating(q) == Label(BandOf(q));
  }
}
