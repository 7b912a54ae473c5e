/** Shots: move by their velocity each tick and drop out when they leave the screen. */
module Shots {
  import opened Screen

  /** The fields of a Shot at one moment; `status` is 1 while active and 0 once inactive. */
  datatype ShotState = ShotState(x: real, y: real, vectorX: real, vectorY: real, status: Byte)

  /** `isActive`. */
  predicate Active(s: ShotState)
  {
    s.status == 1
  }

  /** The shot after one `move`. */
  function Step(s: ShotState): (r: ShotState)
    ensures s.status == 0 ==> r == s
    ensures s.status != 0 ==> r.x == s.x + s.vectorX && r.y == s.y + s.vectorY
    ensures s.status != 0 ==> (r.status == 0 <==> !OnScreen(r.x, r.y))
    ensures r.status != 0 ==> r.status == s.status
    ensures r.vectorX == s.vectorX && r.vectorY == s.vectorY
    ensures Active(r) ==> OnScreen(r.x, r.y)
  {
    if s.status == 0 then s
    else
      var s' := s.(x := s.x + s.vectorX, y := s.y + s.vectorY);
      if !OnScreen(s'.x, s'.y) then s'.(status := 0) else s'
  }

  /** The shot after n consecutive moves. */
  function Moves(s: ShotState, n: nat): ShotState
  {
    if n == 0 then s else Step(Moves(s, n - 1))
  }

  /** A shot still active after n moves was active from the start and has
      travelled n times its velocity, which never changes. */
  lemma {:induction false} FlightPath(s: ShotState, n: nat)
    requires Moves(s, n).status != 0
    ensures s.status == Moves(s, n).status
    ensures Moves(s, n) == s.(x := s.x + n as real * s.vectorX, y := s.y + n as real * s.vectorY)
  {
    if n > 0 {
      FlightPath(s, n - 1);
    }
  }

  /** An inactive shot never moves again and is never reactivated. */
  lemma {:induction false} InactiveStaysPut(s: ShotState, n: nat)
    requires s.status == 0
    ensures Moves(s, n) == s
  {
    if n > 0 {
      InactiveStaysPut(s, n - 1);
    }
  }

  /** After at least one move, a shot that is still active is on screen. */
  lemma ActiveShotOnScreen(s: ShotState, n: nat)
    requires n > 0 && Active(Moves(s, n))
    ensures OnScreen(Moves(s, n).x, Moves(s, n).y)
  {
  }

  class Shot {
    var x: real
    var y: real
    var vectorX: real
    var vectorY: real
    var status: Byte

    /** The fields as a value. */
    function State(): ShotState
      reads this
    {
      ShotState(x, y, vectorX, vectorY, status)
    }

    /** A shot whose fields are all zero (inactive) until `Initialize`. */
    constructor ()
      ensures State() == ShotState(0.0, 0.0, 0.0, 0.0, 0)
    {
      x, y, vectorX, vectorY, status := 0.0, 0.0, 0.0, 0.0, 0;
    }

    method Initialize(startX: real, startY: real, vx: real, vy: real)
      modifies this
      ensures State() == ShotState(startX, startY, vx, vy, 1)
    {
      x := startX;
      y := startY;
      vectorX := vx;
      vectorY := vy;
      status := 1;
    }

    method Move()
      modifies this
      ensures State() == Step(old(State()))
    {
      if status == 0 {
        return;
      }
      x := x + vectorX;
      y := y + vectorY;
      if x < 0.0 || x >= 32.0 || y < 0.0 || y >= 16.0 {
        status := 0;
      }
    }

    /** The game's direct write `status = 0` when a shot hits an enemy. */
    method Deactivate()
      modifies this
      ensures State() == old(State()).(status := 0)
    {
      status := 0;
    }

    method IsActive() returns (active: bool)
      ensures active <==> Active(State())
    {
      active := status == 1;
    }
  }
}
