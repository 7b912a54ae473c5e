/** Power-ups: descend a fifth of a row per tick and drop out past the bottom row. */
module PowerUps {
  import opened Screen

  /** The fields of a PowerUp at one moment; `kind` is the source's `type`. */
  datatype PowerUpState = PowerUpState(x: real, y: real, kind: Byte, active: bool)

  /** Rows an active power-up descends per `move`. The firmware's `double`
      cannot represent 0.2 exactly; here it is the exact rational. */
  const Descent: real := 0.2

  /** The power-up after one `move`. */
  function Step(p: PowerUpState): (r: PowerUpState)
    ensures !p.active ==> r == p
    ensures p.active ==> r.y == p.y + Descent && r.x == p.x && r.kind == p.kind
    ensures p.active ==> (r.active <==> r.y <= BottomRow)
    ensures r.active ==> p.active
  {
    if !p.active then p
    else
      var p' := p.(y := p.y + Descent);
      if p'.y > BottomRow then p'.(active := false) else p'
  }

  /** The power-up after n consecutive moves. */
  function Moves(p: PowerUpState, n: nat): PowerUpState
  {
    if n == 0 then p else Step(Moves(p, n - 1))
  }

  /** A power-up still active after n moves was active from the start, has
      descended 0.2 per move and is still above the bottom edge. */
  lemma {:induction false} DriftPath(p: PowerUpState, n: nat)
    requires Moves(p, n).active
    ensures p.active
    ensures Moves(p, n) == p.(y := p.y + Descent * n as real)
    ensures n > 0 ==> Moves(p, n).y <= BottomRow
  {
    if n > 0 {
      DriftPath(p, n - 1);
    }
  }

  /** An inactive power-up never moves again and is never reactivated. */
  lemma {:induction false} InactiveStaysPut(p: PowerUpState, n: nat)
    requires !p.active
    ensures Moves(p, n) == p
  {
    if n > 0 {
      InactiveStaysPut(p, n - 1);
    }
  }

  class PowerUp {
    var x: real
    var y: real
    var kind: Byte
    var active: bool

    /** The fields as a value. */
    function State(): PowerUpState
      reads this
    {
      PowerUpState(x, y, kind, active)
    }

    /** A power-up whose fields are all zero (inactive) until `Initialize`. */
    constructor ()
      ensures State() == PowerUpState(0.0, 0.0, 0, false)
    {
      x, y, kind, active := 0.0, 0.0, 0, false;
    }

    method Initialize(startX: real, startY: real, t: Byte)
      modifies this
      ensures State() == PowerUpState(startX, startY, t, true)
    {
      x := startX;
      y := startY;
      kind := t;
      active := true;
    }

    method Move()
      modifies this
      ensures State() == Step(old(State()))
    {
      if !active {
        return;
      }
      y := y + 0.2;
      if y > 15.0 {
        active := false;
      }
    }

    method IsActive() returns (isActive: bool)
      ensures isActive == State().active
    {
      isActive := active;
    }
  }
}
