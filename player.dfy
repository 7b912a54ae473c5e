/** The player's ship: a byte position clamped to the screen and a shield. */
module Player {
  import opened Screen

  /** The fields of a PlayerShip at one moment. */
  datatype ShipState = ShipState(x: Byte, y: Byte, shieldEnergy: int)

  /** Where `initialize` puts the ship: column 4, row 14, full shield. */
  const Spawn: ShipState := ShipState(4, 14, 100)

  /** One coordinate after the `> max` check of `move`; a byte is never below 0,
      so the source's `< 0` checks never fire. */
  function Clamp(v: Byte, max: Byte): (r: Byte)
    ensures r <= max
    ensures v <= max ==> r == v
    ensures max < v ==> r == max
  {
    if v > max then max else v
  }

  /** The ship after `move`, where (inputX, inputY) is the position left by the
      input handler. */
  function Moved(s: ShipState, inputX: Byte, inputY: Byte): (r: ShipState)
    ensures r.x <= MaxColumn && r.y <= MaxRow
    ensures inputX <= MaxColumn ==> r.x == inputX
    ensures inputY <= MaxRow ==> r.y == inputY
    ensures r.shieldEnergy == s.shieldEnergy
  {
    ShipState(Clamp(inputX, MaxColumn), Clamp(inputY, MaxRow), s.shieldEnergy)
  }

  /** The ship after `explode`. */
  function Exploded(s: ShipState): (r: ShipState)
    ensures r.shieldEnergy == 0
    ensures r.x == s.x && r.y == s.y
  {
    s.(shieldEnergy := 0)
  }

  /** Exploding a ship a second time changes nothing. */
  lemma ExplodeIdempotent(s: ShipState)
    ensures Exploded(Exploded(s)) == Exploded(s)
  {
  }

  /** Moving a ship that is already on screen with the input handler leaving it
      where it is keeps it in place. */
  lemma MoveKeepsOnScreenShip(s: ShipState)
    requires s.x <= MaxColumn && s.y <= MaxRow
    ensures Moved(s, s.x, s.y) == s
  {
  }

  class PlayerShip {
    var x: Byte
    var y: Byte
    var shieldEnergy: int

    /** The fields as a value. */
    function State(): ShipState
      reads this
    {
      ShipState(x, y, shieldEnergy)
    }

    /** A ship with zero-initialised fields, as a statically allocated object has. */
    constructor ()
      ensures State() == ShipState(0, 0, 0)
    {
      x, y, shieldEnergy := 0, 0, 0;
    }

    method Initialize()
      modifies this
      ensures State() == Spawn
    {
      x := 4;
      y := 14;
      shieldEnergy := 100;
    }

    /** `move`: the input handler sets the position to (inputX, inputY), then
        each coordinate is clamped to the screen in turn. */
    method Move(inputX: Byte, inputY: Byte)
      modifies this
      ensures State() == Moved(old(State()), inputX, inputY)
    {
      x, y := inputX, inputY;
      if x > 31 {
        x := 31;
      }
      if y > 15 {
        y := 15;
      }
    }

    method Explode()
      modifies this
      ensures State() == Exploded(old(State()))
    {
      shieldEnergy := 0;
    }

    method GetShieldEnergy() returns (energy: int)
      ensures energy == shieldEnergy
    {
      energy := shieldEnergy;
    }
  }
}
