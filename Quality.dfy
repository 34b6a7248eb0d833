/** The quality rating shown at the end of a test (`getQualityRating`). */
module Quality {

  /** The five tiers, worst first. */
  datatype Tier = VeryPoor | Poor | Fair | Good | Excellent

  function Rank(t: Tier): nat {
    match t
    case VeryPoor => 0
    case Poor => 1
    case Fair => 2
    case Good => 3
    case Excellent => 4
  }

  /** The first tier whose thresholds the download speed (Mbps) and the ping (ms)
      meet. Only the Excellent tier excludes the ping sentinel -1. */
  function QualityRating(downloadSpeed: real, ping: int): (t: Tier)
    ensures t == VeryPoor <==> downloadSpeed < 2.0
    ensures t == Excellent ==> ping > 0 && downloadSpeed >= 25.0
    ensures Rank(t) >= 2 ==> downloadSpeed >= 5.0 && ping < 150
  {
    if downloadSpeed >= 25.0 && ping > 0 && ping < 50 then Excellent
    else if downloadSpeed >= 10.0 && ping < 100 then Good
    else if downloadSpeed >= 5.0 && ping < 150 then Fair
    else if downloadSpeed >= 2.0 then Poor
    else VeryPoor
  }

  /** The text shown for a tier. */
  function Label(t: Tier): (s: string)
    ensures |s| > Rank(t) + 1
    ensures forall k :: 0 <= k <= Rank(t) ==> s[k] == '⭐'
    ensures s[Rank(t) + 1] == ' '
  {
    match t
    case Excellent => "⭐⭐⭐⭐⭐ Excellent"
    case Good => "⭐⭐⭐⭐ Good"
    case Fair => "⭐⭐⭐ Fair"
    case Poor => "⭐⭐ Poor"
    case VeryPoor => "⭐ Very Poor"
  }

  /** Distinct tiers are shown with distinct texts. */
  lemma LabelsDistinct(t: Tier, u: Tier)
    ensures Label(t) == Label(u) <==> t == u
  {
  }

  /** Each tier is chosen exactly when its own thresholds hold and those of every
      better tier fail. */
  lemma RatingCharacterised(d: real, p: int)
    ensures QualityRating(d, p) == Excellent <==> d >= 25.0 && 0 < p < 50
    ensures QualityRating(d, p) == Good <==>
      !(d >= 25.0 && 0 < p < 50) && d >= 10.0 && p < 100
    ensures QualityRating(d, p) == Fair <==>
      !(d >= 25.0 && 0 < p < 50) && !(d >= 10.0 && p < 100) && d >= 5.0 && p < 150
    ensures QualityRating(d, p) == Poor <==>
      !(d >= 10.0 && p < 100) && !(d >= 5.0 && p < 150) && d >= 2.0
    ensures QualityRating(d, p) == VeryPoor <==> d < 2.0
  {
  }

  /** For a fixed ping, a faster download never rates lower. */
  lemma RatingMonotoneInDownload(d1: real, d2: real, p: int)
    requires d1 <= d2
    ensures Rank(QualityRating(d1, p)) <= Rank(QualityRating(d2, p))
  {
  }

  /** For a fixed download speed, among measured (positive) pings a higher ping
      never rates higher. */
  lemma RatingAntitoneInPing(d: real, p1: int, p2: int)
    requires 0 < p1 <= p2
    ensures Rank(QualityRating(d, p1)) >= Rank(QualityRating(d, p2))
  {
  }

  /** The ping sentinel -1 is kept out of Excellent only: it passes the Good and
      Fair ping bounds, so it can rate better than a measured 60 ms and, with a
      fast download, worse than a measured 10 ms. */
  lemma SentinelPing(d: real)
    ensures d >= 10.0 ==> QualityRating(d, -1) == Good
    ensures 5.0 <= d < 10.0 ==> QualityRating(d, -1) == Fair
    ensures QualityRating(20.0, -1) == Good && QualityRating(20.0, 120) == Fair
    ensures QualityRating(30.0, 10) == Excellent && QualityRating(30.0, -1) == Good
  {
  }

  /** Sample ratings. */
  lemma RatingExamples()
    ensures QualityRating(30.0, 40) == Excellent
    ensures QualityRating(12.0, 80) == Good
    ensures QualityRating(6.0, 120) == Fair
    ensures QualityRating(3.0, 500) == Poor
    ensures QualityRating(0.5, 500) == VeryPoor
  {
  }
}
