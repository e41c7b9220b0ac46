/**
 * The scanned-product card (src/components/ProductResult.tsx): the score badge's
 * colour and icon, chosen by the same two thresholds, and the certification list.
 */
module ProductResult {

  /** The `product` prop. */
  datatype Product = Product(
    name: string,
    brand: string,
    carbonFootprint: real,
    category: string,
    sustainabilityScore: real,
    certifications: seq<string>)

  datatype ScoreColour = GreenScore | YellowScore | RedScore

  /** `getScoreColor`: green from 80, yellow from 60, red below. */
  function GetScoreColor(score: real): (r: ScoreColour)
    ensures r == GreenScore <==> score >= 80.0
    ensures r == YellowScore <==> 60.0 <= score < 80.0
    ensures r == RedScore <==> score < 60.0
  {
    if score >= 80.0 then GreenScore
    else if score >= 60.0 then YellowScore
    else RedScore
  }

  datatype ScoreIcon = CheckCircleIcon | LeafIcon | AlertTriangleIcon

  /** `getScoreIcon`: a check from 80, a leaf from 60, a warning below. */
  function GetScoreIcon(score: real): (r: ScoreIcon)
    ensures r == CheckCircleIcon <==> score >= 80.0
    ensures r == LeafIcon <==> 60.0 <= score < 80.0
    ensures r == AlertTriangleIcon <==> score < 60.0
  {
    if score >= 80.0 then CheckCircleIcon
    else if score >= 60.0 then LeafIcon
    else AlertTriangleIcon
  }

  /** The badge never mixes bands: its icon always matches its colour. */
  lemma ScoreIconMatchesColour(score: real)
    ensures GetScoreColor(score) == GreenScore <==> GetScoreIcon(score) == CheckCircleIcon
    ensures GetScoreColor(score) == YellowScore <==> GetScoreIcon(score) == LeafIcon
    ensures GetScoreColor(score) == RedScore <==> GetScoreIcon(score) == AlertTriangleIcon
  {
  }

  /** Red is the worst band and green the best. */
  function ColourRank(c: ScoreColour): int
  {
    match c
    case RedScore => 0
    case YellowScore => 1
    case GreenScore => 2
  }

  /** A higher score never gets a worse band. */
  lemma ScoreColourMonotone(a: real, b: real)
    requires a <= b
    ensures ColourRank(GetScoreColor(a)) <= ColourRank(GetScoreColor(b))
  {
  }

  /** What the certifications column shows. */
  datatype CertificationsView = NoCertificationsAvailable | CertificationRows(rows: seq<string>)

  /** The list when there is one, otherwise the "No certifications available" line. */
  function CertificationsViewOf(p: Product): (v: CertificationsView)
    ensures v == NoCertificationsAvailable <==> |p.certifications| == 0
    ensures v.CertificationRows? ==> v.rows == p.certifications
  {
    if |p.certifications| > 0 then CertificationRows(p.certifications) else NoCertificationsAvailable
  }
}
