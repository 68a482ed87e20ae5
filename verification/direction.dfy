/** The cardinal compass directions (src/physics/direction.py). */
module Directions {

  datatype Direction = North | East | South | West

  /** The direction pointing the other way. */
  function Opposite(d: Direction): (r: Direction)
    ensures r != d
    ensures (d == North || d == South) <==> (r == North || r == South)
  {
    match d
    case North => South
    case East => West
    case South => North
    case West => East
  }

  lemma OppositeNorthSouth()
    ensures Opposite(North) == South && Opposite(South) == North
  {
  }

  lemma OppositeEastWest()
    ensures Opposite(East) == West && Opposite(West) == East
  {
  }

  /** Turning round twice gives back the original direction. */
  lemma OppositeInvolution(d: Direction)
    ensures Opposite(Opposite(d)) == d
  {
  }

}
