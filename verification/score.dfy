/**
 * The colour of `MatchScoreRing`: green from 80 up, amber from 60 up, red
 * below. The ring's geometry is floating point and not modelled; scores are
 * whole numbers here.
 */
module Score {

  /** The three stroke colours. */
  datatype RingColour = Green | Amber | Red

  /** The CSS colour the ring is stroked with. */
  function Hex(c: RingColour): string {
    match c
    case Green => "#10B981"
    case Amber => "#F59E0B"
    case Red => "#EF4444"
  }

  /** `score >= 80 ? green : score >= 60 ? amber : red`. */
  function ScoreColour(score: int): (c: RingColour)
    ensures c == Green <==> 80 <= score
    ensures c == Amber <==> 60 <= score < 80
    ensures c == Red <==> score < 60
  {
    if score >= 80 then Green else if score >= 60 then Amber else Red
  }

  /** The stroke `MatchScoreRing` draws for a score: green, amber or red as CSS colours. */
  function StrokeFor(score: int): (hex: string)
    ensures hex == "#10B981" <==> 80 <= score
    ensures hex == "#F59E0B" <==> 60 <= score < 80
    ensures hex == "#EF4444" <==> score < 60
  {
    Hex(ScoreColour(score))
  }

  /** How good a colour looks: red, then amber, then green. */
  function Rank(c: RingColour): nat {
    match c
    case Red => 0
    case Amber => 1
    case Green => 2
  }

  /** A higher score never gets a worse colour. */
  lemma ScoreColourMonotone(a: int, b: int)
    requires a <= b
    ensures Rank(ScoreColour(a)) <= Rank(ScoreColour(b))
  {
  }
}
