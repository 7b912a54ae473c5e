/** Enemies: descend half a row per tick and drop out past the bottom row. */
module Enemies {
  import opened Screen

  /** The fields of an Enemy at one moment; `kind` is the source's `type`,
      `status` is 1 while active and 0 once inactive. */
  datatype EnemyState = EnemyState(x: real, y: real, kind: Byte, hitPoints: int, status: Byte)

  /** Rows an active enemy descends per `move`. */
  const Descent: real := 0.5

  /** Hit points that `initialize` gives an enemy of the given type. */
  function HitPointsFor(kind: Byte): int
  {
    (kind + 1) * 10
  }

  /** What `initialize(kind)` produces: active at the top row, in a whole
      column of the screen, with the type's hit points. */
  predicate IsSpawned(e: EnemyState, kind: Byte)
  {
    && e.status == 1
    && e.y == 0.0
    && e.kind == kind
    && e.hitPoints == HitPointsFor(kind)
    && 0.0 <= e.x < Width as real
    && e.x == e.x.Floor as real
  }

  /** The enemy after one `move`. */
  function Step(e: EnemyState): (r: EnemyState)
    ensures e.status == 0 ==> r == e
    ensures e.status != 0 ==>
      && r.y == e.y + Descent
      && r.x == e.x && r.kind == e.kind && r.hitPoints == e.hitPoints
      && (r.status == 0 <==> r.y > BottomRow)
      && (r.status != 0 ==> r.status == e.status)
  {
    if e.status == 0 then e
    else
      var e' := e.(y := e.y + Descent);
      if e'.y > BottomRow then e'.(status := 0) else e'
  }

  /** The enemy after `explode`: inactive with no hit points, whatever it was. */
  function Exploded(e: EnemyState): (r: EnemyState)
    ensures r.status == 0 && r.hitPoints == 0
    ensures r.x == e.x && r.y == e.y && r.kind == e.kind
  {
    e.(status := 0, hitPoints := 0)
  }

  /** Exploding an enemy a second time changes nothing. */
  lemma ExplodeIdempotent(e: EnemyState)
    ensures Exploded(Exploded(e)) == Exploded(e)
  {
  }

  /** The enemy after n consecutive moves. */
  function Moves(e: EnemyState, n: nat): EnemyState
  {
    if n == 0 then e else Step(Moves(e, n - 1))
  }

  /** An active enemy whose path stays on screen descends 0.5 per move and
      nothing else about it changes. */
  lemma {:induction false} DescendsWhileOnScreen(e: EnemyState, n: nat)
    requires e.status != 0
    requires e.y + Descent * n as real <= BottomRow
    ensures Moves(e, n) == e.(y := e.y + Descent * n as real)
  {
    if n > 0 {
      DescendsWhileOnScreen(e, n - 1);
    }
  }

  /** An inactive enemy never moves again and is never reactivated. */
  lemma {:induction false} InactiveStaysPut(e: EnemyState, n: nat)
    requires e.status == 0
    ensures Moves(e, n) == e
  {
    if n > 0 {
      InactiveStaysPut(e, n - 1);
    }
  }

  /** Moving m times and then n times is moving m + n times. */
  lemma {:induction false} MovesCompose(e: EnemyState, m: nat, n: nat)
    ensures Moves(Moves(e, m), n) == Moves(e, m + n)
  {
    if n > 0 {
      MovesCompose(e, m, n - 1);
    }
  }

  /** Once an enemy has gone inactive, no later move brings it back. */
  lemma NeverReactivated(e: EnemyState, m: nat, n: nat)
    requires Moves(e, m).status == 0
    ensures Moves(e, m + n).status == 0
  {
    MovesCompose(e, m, n);
    InactiveStaysPut(Moves(e, m), n);
  }

  /** A freshly spawned enemy is still active on row 15 after 30 moves and
      leaves the screen, at row 15.5, on the 31st. */
  lemma SpawnedLifetime(e: EnemyState, kind: Byte)
    requires IsSpawned(e, kind)
    ensures Moves(e, 30).status == 1 && Moves(e, 30).y == 15.0
    ensures Moves(e, 31).status == 0 && Moves(e, 31).y == 15.5
  {
    DescendsWhileOnScreen(e, 30);
  }

  class Enemy {
    var x: real
    var y: real
    var kind: Byte
    var hitPoints: int
    var status: Byte

    /** The fields as a value. */
    function State(): EnemyState
      reads this
    {
      EnemyState(x, y, kind, hitPoints, status)
    }

    /** An enemy whose fields are all zero (inactive) until `Initialize`. */
    constructor ()
      ensures State() == EnemyState(0.0, 0.0, 0, 0, 0)
    {
      x, y, kind, hitPoints, status := 0.0, 0.0, 0, 0, 0;
    }

    /** `initialize(type)`; `roll` stands for the unspecified value of `rand()`. */
    method Initialize(t: Byte)
      modifies this
      ensures IsSpawned(State(), t)
    {
      kind := t;
      var roll: nat :| true;
      x := (roll % 32) as real;
      y := 0.0;
      hitPoints := (t + 1) * 10;
      status := 1;
    }

    method Move()
      modifies this
      ensures State() == Step(old(State()))
    {
      if status == 0 {
        return;
      }
      y := y + 0.5;
      if y > 15.0 {
        status := 0;
      }
    }

    method Explode()
      modifies this
      ensures State() == Exploded(old(State()))
    {
      status := 0;
      hitPoints := 0;
    }
  }
}
