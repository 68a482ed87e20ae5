/** The pool table (src/pool/pool_table.py): its dimensions, ball set,
    pockets, racks and the removal of pocketed balls. */
module Tables {

  import opened RealMath
  import opened Points
  import opened Utility
  import opened Balls
  import Vectors

  /** The games the table can be racked for. */
  datatype GameType = ThreeBall | NineBall

  /** Diamonds along the long rail, and the diamonds of the cue and rack
      spots. The short rail's four diamonds are not used by any operation. */
  const LongDiamonds: int := 8
  const ShortDiamonds: int := 4
  const CueStartDiamond: int := 2
  const RackStartDiamond: int := 6

  /** Mass and radius of every ball `get_balls` builds. */
  const BallMass: real := 10.0
  const BallRadius: real := 15.0

  /** Every ball kind, in the order `get_balls` lists them. */
  const Kinds: seq<BallType> := [Cue, One, Two, Three, Four, Five, Six, Seven, Eight, Nine]

  /** `Kinds` lists every ball kind. */
  lemma KindsComplete()
    ensures forall k: BallType :: k in Kinds
  {
    forall k: BallType
      ensures k in Kinds
    {
      var i := match k
        case Cue => 0 case One => 1 case Two => 2 case Three => 3 case Four => 4
        case Five => 5 case Six => 6 case Seven => 7 case Eight => 8 case Nine => 9;
      assert Kinds[i] == k;
    }
  }

  /** The table: the length of its long side, its width, the balls in play
      by kind, the cue angle, the pocket centres and the pocket radius. */
  datatype PoolTable = PoolTable(length: real, width: real, balls: map<BallType, PoolBall>,
                                 cueAngle: real, holeCenters: seq<Coordinates>,
                                 holeRadius: real)

  /** `get_balls`: all ten kinds, each at the origin and at rest, with mass
      10 and radius 15. The game type does not change the set. */
  function GetBalls(n: Numerics, game: GameType): (m: map<BallType, PoolBall>)
    ensures forall k: BallType :: k in m
    ensures forall k :: k in m ==> m[k] == NewBall(n, k, Origin, BallMass, BallRadius)
    ensures forall k :: k in m ==> m[k].kind == k && m[k].mass == 10.0 && m[k].radius == 15.0
  {
    KindsComplete();
    map k: BallType | k in Kinds :: NewBall(n, k, Origin, BallMass, BallRadius)
  }

  /** A point lies on the boundary of the rectangle `[0, length] x [0, width]`. */
  predicate OnBoundary(p: Coordinates, length: real, width: real) {
    && 0.0 <= p.x <= length && 0.0 <= p.y <= width
    && (p.x == 0.0 || p.x == length || p.y == 0.0 || p.y == width)
  }

  /** `get_pockets`: six pocket centres, the four corners and the midpoints
      of the two long sides, all on the table's boundary. */
  function GetPockets(length: real, width: real): (p: seq<Coordinates>)
    ensures |p| == 6
    ensures 0.0 <= length && 0.0 <= width ==>
              forall i :: 0 <= i < |p| ==> OnBoundary(p[i], length, width)
    ensures Coordinates(0.0, 0.0) in p && Coordinates(length, 0.0) in p
    ensures Coordinates(0.0, width) in p && Coordinates(length, width) in p
    ensures Coordinates(length / 2.0, 0.0) in p && Coordinates(length / 2.0, width) in p
  {
    [ Coordinates(0.0, 0.0),
      Coordinates(0.0, width),
      Coordinates(length / 2.0, width),
      Coordinates(length, width),
      Coordinates(length, 0.0),
      Coordinates(length / 2.0, 0.0) ]
  }

  /** The kinds `rack_balls` looks up for a game; a missing one is a
      `KeyError` in the source. */
  function RackedKinds(game: GameType): set<BallType> {
    if game == ThreeBall then {Cue, One, Two, Three}
    else {Cue, One, Two, Three, Four, Five, Six, Seven, Eight, Nine}
  }

  /** The cue ball's spot: two diamonds along, 20 below the centreline. */
  function CueSpot(length: real, width: real): Coordinates {
    Coordinates((CueStartDiamond as real / LongDiamonds as real) * length, width / 2.0 + 20.0)
  }

  /** The spot of the leading ONE ball: six diamonds along, on the
      centreline. */
  function FootSpot(length: real, width: real): Coordinates {
    Coordinates((RackStartDiamond as real / LongDiamonds as real) * length, width / 2.0)
  }

  /** The position one rack row further on: `sqrt(3) r` along and `dy`
      across from `p`. */
  function Behind(n: Numerics, p: Coordinates, r: real, dy: real): Coordinates {
    Coordinates(p.x + n.sqrt(3.0) * r, p.y + dy)
  }

  /** The positions `rack_balls` assigns, for balls of radius `r`. */
  function RackSpots(n: Numerics, game: GameType, length: real, width: real, r: real)
    : (s: map<BallType, Coordinates>)
    ensures s.Keys == RackedKinds(game)
  {
    var one := FootSpot(length, width);
    var two := Behind(n, one, r, r);
    var three := Behind(n, one, r, -r);
    if game == ThreeBall then
      map[Cue := CueSpot(length, width), One := one, Two := two, Three := three]
    else
      var four := Behind(n, two, r, r);
      var nine := Behind(n, two, r, -r);
      var five := Behind(n, three, r, -r);
      var six := Behind(n, nine, r, r);
      var seven := Behind(n, nine, r, -r);
      var eight := Behind(n, seven, r, r);
      map[Cue := CueSpot(length, width), One := one, Two := two, Three := three,
          Four := four, Five := five, Six := six, Seven := seven, Eight := eight,
          Nine := nine]
  }

  /** The spots form the rack: the cue ball and the ONE ball on their
      spots, and each further ball `(sqrt(3) r, +-r)` from the ball it is
      placed behind. */
  lemma SpotsChain(n: Numerics, game: GameType, length: real, width: real, r: real)
    ensures var s, h := RackSpots(n, game, length, width, r), n.sqrt(3.0) * r;
            && s[Cue] == CueSpot(length, width) && s[One] == FootSpot(length, width)
            && s[Two].Minus(s[One]) == Coordinates(h, r)
            && s[Three].Minus(s[One]) == Coordinates(h, -r)
            && (game == NineBall ==>
                && s[Four].Minus(s[Two]) == Coordinates(h, r)
                && s[Nine].Minus(s[Two]) == Coordinates(h, -r)
                && s[Five].Minus(s[Three]) == Coordinates(h, -r)
                && s[Six].Minus(s[Nine]) == Coordinates(h, r)
                && s[Seven].Minus(s[Nine]) == Coordinates(h, -r)
                && s[Eight].Minus(s[Seven]) == Coordinates(h, r))
  {
  }

  /** `rack_balls`: moves each racked ball to its spot, measured with the
      ONE ball's radius, and changes nothing else about any ball. */
  function RackBalls(n: Numerics, balls: map<BallType, PoolBall>, length: real, width: real,
                     game: GameType): (r: map<BallType, PoolBall>)
    requires RackedKinds(game) <= balls.Keys
    ensures r.Keys == balls.Keys
    ensures forall k :: k in r ==> SameBall(r[k], balls[k]) && r[k].vel == balls[k].vel
    ensures forall k :: k in r && k !in RackedKinds(game) ==> r[k] == balls[k]
    ensures forall k :: k in RackedKinds(game) ==>
              r[k].pos == RackSpots(n, game, length, width, balls[One].radius)[k]
  {
    var spots := RackSpots(n, game, length, width, balls[One].radius);
    map k | k in balls :: if k in spots then balls[k].(pos := spots[k]) else balls[k]
  }

  /** Racking puts the cue ball on its spot, `(L 2/8, W/2 + 20)`, and the
      ONE ball on the foot spot, `(L 6/8, W/2)`, in both games. */
  lemma RackSpotsPlaced(n: Numerics, balls: map<BallType, PoolBall>, length: real, width: real,
                        game: GameType)
    requires RackedKinds(game) <= balls.Keys
    ensures var r := RackBalls(n, balls, length, width, game);
            && r[Cue].pos == Coordinates(length / 4.0, width / 2.0 + 20.0)
            && r[One].pos == Coordinates(length * 3.0 / 4.0, width / 2.0)
  {
    SpotOf(n, balls, length, width, game, Cue);
    SpotOf(n, balls, length, width, game, One);
    SpotsChain(n, game, length, width, balls[One].radius);
    SpotValues(length, width);
  }

  /** Two of eight diamonds is a quarter of the length, six of eight three
      quarters. */
  lemma SpotValues(length: real, width: real)
    ensures CueSpot(length, width) == Coordinates(length / 4.0, width / 2.0 + 20.0)
    ensures FootSpot(length, width) == Coordinates(length * 3.0 / 4.0, width / 2.0)
  {
    assert CueStartDiamond as real / LongDiamonds as real == 0.25;
    assert RackStartDiamond as real / LongDiamonds as real == 0.75;
  }

  /** A racked ball's position after racking is its spot. */
  lemma SpotOf(n: Numerics, balls: map<BallType, PoolBall>, length: real, width: real,
               game: GameType, k: BallType)
    requires RackedKinds(game) <= balls.Keys
    requires k in RackedKinds(game)
    ensures RackBalls(n, balls, length, width, game)[k].pos
         == RackSpots(n, game, length, width, balls[One].radius)[k]
  {
  }

  /** The TWO and THREE balls sit `(sqrt(3) r, +-r)` from the ONE ball, in
      both games. */
  lemma RackChain(n: Numerics, balls: map<BallType, PoolBall>, length: real, width: real,
                  game: GameType)
    requires RackedKinds(game) <= balls.Keys
    ensures var r, h, rad := RackBalls(n, balls, length, width, game), n.sqrt(3.0) * balls[One].radius,
                            balls[One].radius;
            && r[Two].pos.Minus(r[One].pos) == Coordinates(h, rad)
            && r[Three].pos.Minus(r[One].pos) == Coordinates(h, -rad)
  {
    SpotsChain(n, game, length, width, balls[One].radius);
    SpotOf(n, balls, length, width, game, One);
    SpotOf(n, balls, length, width, game, Two);
    SpotOf(n, balls, length, width, game, Three);
  }

  /** In the nine-ball rack each further ball sits `(sqrt(3) r, +-r)` from
      the ball it was placed behind. */
  lemma RackChainNine(n: Numerics, balls: map<BallType, PoolBall>, length: real, width: real)
    requires RackedKinds(NineBall) <= balls.Keys
    ensures var r, h, rad := RackBalls(n, balls, length, width, NineBall),
                            n.sqrt(3.0) * balls[One].radius, balls[One].radius;
            && r[Four].pos.Minus(r[Two].pos) == Coordinates(h, rad)
            && r[Nine].pos.Minus(r[Two].pos) == Coordinates(h, -rad)
            && r[Five].pos.Minus(r[Three].pos) == Coordinates(h, -rad)
            && r[Six].pos.Minus(r[Nine].pos) == Coordinates(h, rad)
            && r[Seven].pos.Minus(r[Nine].pos) == Coordinates(h, -rad)
            && r[Eight].pos.Minus(r[Seven].pos) == Coordinates(h, rad)
  {
    SpotsChain(n, NineBall, length, width, balls[One].radius);
    SpotOf(n, balls, length, width, NineBall, Two);
    SpotOf(n, balls, length, width, NineBall, Three);
    SpotOf(n, balls, length, width, NineBall, Four);
    SpotOf(n, balls, length, width, NineBall, Five);
    SpotOf(n, balls, length, width, NineBall, Six);
    SpotOf(n, balls, length, width, NineBall, Seven);
    SpotOf(n, balls, length, width, NineBall, Eight);
    SpotOf(n, balls, length, width, NineBall, Nine);
  }

  /** Two balls of radius `r` whose centres are `(sqrt(3) r, +-r)` apart
      touch: their centres are exactly `2 r` apart. */
  lemma BehindTouches(n: Numerics, p: Coordinates, q: Coordinates, r: real)
    requires Lawful(n)
    requires 0.0 <= r
    requires q.Minus(p) == Coordinates(n.sqrt(3.0) * r, r)
          || q.Minus(p) == Coordinates(n.sqrt(3.0) * r, -r)
    ensures Distance(n, p, q) == 2.0 * r && Distance(n, q, p) == 2.0 * r
  {
    var s := n.sqrt(3.0);
    assert Sq(s) == 3.0;
    SqProduct(s, r);
    SqProduct(2.0, r);
    SqLaws(r);
    assert Sq(q.x - p.x) == 3.0 * Sq(r);
    assert Sq(q.y - p.y) == Sq(r);
    SqrtUnique(n, Sq(q.x - p.x) + Sq(q.y - p.y), 2.0 * r);
    DistanceLaws(n, q, p);
  }

  /** The square of a product is the product of the squares. */
  lemma SqProduct(a: real, b: real)
    ensures Sq(a * b) == Sq(a) * Sq(b)
  {
    assert (a * b) * (a * b) == (a * a) * (b * b);
  }

  /** In the nine-ball rack every ball touches the one it was placed
      behind, provided the ONE ball's radius is non-negative. */
  lemma RackNeighboursTouch(n: Numerics, balls: map<BallType, PoolBall>, length: real,
                            width: real)
    requires Lawful(n)
    requires RackedKinds(NineBall) <= balls.Keys
    requires 0.0 <= balls[One].radius
    ensures var r, d := RackBalls(n, balls, length, width, NineBall), 2.0 * balls[One].radius;
            && Distance(n, r[One].pos, r[Two].pos) == d
            && Distance(n, r[One].pos, r[Three].pos) == d
            && Distance(n, r[Two].pos, r[Four].pos) == d
            && Distance(n, r[Two].pos, r[Nine].pos) == d
            && Distance(n, r[Three].pos, r[Five].pos) == d
            && Distance(n, r[Nine].pos, r[Six].pos) == d
            && Distance(n, r[Nine].pos, r[Seven].pos) == d
            && Distance(n, r[Seven].pos, r[Eight].pos) == d
  {
    var r, rad := RackBalls(n, balls, length, width, NineBall), balls[One].radius;
    RackChain(n, balls, length, width, NineBall);
    RackChainNine(n, balls, length, width);
    BehindTouches(n, r[One].pos, r[Two].pos, rad);
    BehindTouches(n, r[One].pos, r[Three].pos, rad);
    BehindTouches(n, r[Two].pos, r[Four].pos, rad);
    BehindTouches(n, r[Two].pos, r[Nine].pos, rad);
    BehindTouches(n, r[Three].pos, r[Five].pos, rad);
    BehindTouches(n, r[Nine].pos, r[Six].pos, rad);
    BehindTouches(n, r[Nine].pos, r[Seven].pos, rad);
    BehindTouches(n, r[Seven].pos, r[Eight].pos, rad);
  }

  /** The NINE ball sits two rows behind the ONE ball and the EIGHT ball
      four rows behind it, both on the centreline `y = width / 2`. */
  lemma RackCentreline(n: Numerics, balls: map<BallType, PoolBall>, length: real, width: real)
    requires RackedKinds(NineBall) <= balls.Keys
    ensures var r, h := RackBalls(n, balls, length, width, NineBall), n.sqrt(3.0) * balls[One].radius;
            && r[Nine].pos == r[One].pos.Plus(Coordinates(2.0 * h, 0.0))
            && r[Eight].pos == r[One].pos.Plus(Coordinates(4.0 * h, 0.0))
            && r[Nine].pos.y == width / 2.0 && r[Eight].pos.y == width / 2.0
  {
    RackChain(n, balls, length, width, NineBall);
    RackChainNine(n, balls, length, width);
    RackSpotsPlaced(n, balls, length, width, NineBall);
  }

  /** The three-ball rack places only CUE, ONE, TWO and THREE; TWO and
      THREE are mirror images about the ONE ball's row. */
  lemma ThreeBallMirror(n: Numerics, balls: map<BallType, PoolBall>, length: real, width: real)
    requires RackedKinds(ThreeBall) <= balls.Keys
    ensures var r := RackBalls(n, balls, length, width, ThreeBall);
            && r[Two].pos.x == r[Three].pos.x
            && r[Two].pos.y - r[One].pos.y == r[One].pos.y - r[Three].pos.y
            && (forall k :: k in r && k !in {Cue, One, Two, Three} ==> r[k] == balls[k])
  {
    RackChain(n, balls, length, width, ThreeBall);
  }

  /** `PoolTable(length)`: the width is half the length, the nine balls and
      the cue ball are racked for nine-ball, the pockets are those of
      `get_pockets`, and the pocket radius is 3.25 cue-ball radii. */
  function NewTable(n: Numerics, length: real): (t: PoolTable)
    ensures t.length == length && t.width * 2.0 == length
    ensures t.balls == RackBalls(n, GetBalls(n, NineBall), t.length, t.width, NineBall)
    ensures forall k: BallType :: k in t.balls
    ensures t.holeCenters == GetPockets(t.length, t.width)
    ensures t.holeRadius == 3.25 * t.balls[Cue].radius == 48.75
    ensures t.cueAngle == 0.0
  {
    var width := length / 2.0;
    var balls := RackBalls(n, GetBalls(n, NineBall), length, width, NineBall);
    PoolTable(length, width, balls, 0.0, GetPockets(length, width), 3.25 * balls[Cue].radius)
  }

  /** A ball's centre is closer than `capture` to some pocket centre. */
  predicate NearPocket(n: Numerics, b: PoolBall, pockets: seq<Coordinates>, capture: real) {
    exists i :: 0 <= i < |pockets| && Distance(n, b.pos, pockets[i]) < capture
  }

  /** `pocket_balls`, with the capture distance as a parameter. Every ball
      closer than `capture` to a pocket centre is collected, then each
      collected ball except the cue ball is removed from play; the other
      balls stay exactly as they were. */
  method PocketBalls(n: Numerics, t: PoolTable, capture: real) returns (r: PoolTable)
    ensures r == t.(balls := r.balls)
    ensures forall k :: k in r.balls <==>
              k in t.balls && (k == Cue || !NearPocket(n, t.balls[k], t.holeCenters, capture))
    ensures forall k :: k in r.balls ==> r.balls[k] == t.balls[k]
    ensures Cue in t.balls ==> Cue in r.balls
  {
    var pocketed: set<BallType> := {};
    var i := 0;
    while i < |Kinds|
      invariant 0 <= i <= |Kinds|
      invariant forall k :: k in pocketed <==>
                  k in Kinds[..i] && k in t.balls && NearPocket(n, t.balls[k], t.holeCenters, capture)
    {
      var kind := Kinds[i];
      if kind in t.balls {
        var ball := t.balls[kind];
        var j := 0;
        var near := false;
        while j < |t.holeCenters|
          invariant 0 <= j <= |t.holeCenters|
          invariant near <==> exists q :: 0 <= q < j && Distance(n, ball.pos, t.holeCenters[q]) < capture
        {
          if Distance(n, ball.pos, t.holeCenters[j]) < capture {
            near := true;
          }
          j := j + 1;
        }
        if near {
          pocketed := pocketed + {kind};
        }
      }
      i := i + 1;
    }
    KindsComplete();
    assert Kinds[..i] == Kinds;
    var kept := map k | k in t.balls && (k == Cue || k !in pocketed) :: t.balls[k];
    r := t.(balls := kept);
  }

}
