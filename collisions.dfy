/** What the two collision passes of `handleCollisions` do, as functions of the
    entities' states. The firmware leaves both collision tests empty, so they
    are parameters here: any predicate on the two states involved. */
module Collisions {
  import P = Player
  import E = Enemies
  import S = Shots

  /** Score awarded for every shot/enemy collision. */
  const Reward: int := 100

  /** The test "shot and enemy collide" (left blank in the firmware). */
  type ShotHit = (S.ShotState, E.EnemyState) -> bool

  /** The test "player and enemy collide" (left blank in the firmware). */
  type PlayerHit = (P.ShipState, E.EnemyState) -> bool

  datatype Option<T> = None | Some(value: T)

  /** The outcome of one shot scanning every enemy: the shot, the enemies,
      and the indices of the enemies it hit, in scanning order. */
  datatype Scan = Scan(shot: S.ShotState, enemies: seq<E.EnemyState>, hits: seq<nat>)

  /** The shot as the scan finds it on reaching enemy k: deactivated once it
      has hit an earlier enemy, as it was otherwise. */
  function ShotAt(shot: S.ShotState, hits: seq<nat>, k: nat): S.ShotState
  {
    if hits != [] && hits[0] < k then shot.(status := 0) else shot
  }

  /** The inner loop over enemies for one active shot. Every enemy the shot
      collides with explodes and deactivates the shot, and the scan carries
      on: a shot that has already hit is still tested against the rest. */
  function ScanEnemies(shot: S.ShotState, es: seq<E.EnemyState>, hit: ShotHit): (r: Scan)
    ensures |r.enemies| == |es|
  {
    if es == [] then Scan(shot, [], [])
    else
      var k := |es| - 1;
      var p := ScanEnemies(shot, es[..k], hit);
      if hit(p.shot, es[k]) then
        Scan(p.shot.(status := 0), p.enemies + [E.Exploded(es[k])], p.hits + [k])
      else
        Scan(p.shot, p.enemies + [es[k]], p.hits)
  }

  /** What one shot's scan does: it lists each enemy index at most once, in
      increasing order; exactly the listed enemies are exploded and the rest
      are untouched; and the shot is deactivated iff it hit anything. */
  lemma {:induction false} ScanEffect(shot: S.ShotState, es: seq<E.EnemyState>, hit: ShotHit)
    ensures var r := ScanEnemies(shot, es, hit);
      && (forall n :: 0 <= n < |r.hits| ==> r.hits[n] < |es|)
      && (forall m, n :: 0 <= m < n < |r.hits| ==> r.hits[m] < r.hits[n])
      && (forall k :: 0 <= k < |es| ==>
            r.enemies[k] == if k in r.hits then E.Exploded(es[k]) else es[k])
      && r.shot == (if r.hits == [] then shot else shot.(status := 0))
  {
    if es != [] {
      ScanEffect(shot, es[..|es| - 1], hit);
    }
  }

  /** Which enemies one shot's scan lists: enemy k is listed iff the
      collision test holds for it and for the shot as the scan finds it on
      reaching it (still active unless an earlier enemy was hit). */
  lemma {:induction false} ScanHitTest(shot: S.ShotState, es: seq<E.EnemyState>, hit: ShotHit)
    ensures var r := ScanEnemies(shot, es, hit);
      forall k :: 0 <= k < |es| ==> (k in r.hits <==> hit(ShotAt(shot, r.hits, k), es[k]))
  {
    if es != [] {
      var n := |es| - 1;
      ScanHitTest(shot, es[..n], hit);
      ScanEffect(shot, es[..n], hit);
    }
  }

  /** One more enemy scanned: ScanEnemies unfolded at its last step. */
  lemma ScanOneMore(shot: S.ShotState, es: seq<E.EnemyState>, j: nat, hit: ShotHit)
    requires j < |es|
    ensures var p := ScanEnemies(shot, es[..j], hit);
      ScanEnemies(shot, es[..j + 1], hit) ==
        if hit(p.shot, es[j]) then Scan(p.shot.(status := 0), p.enemies + [E.Exploded(es[j])], p.hits + [j])
        else Scan(p.shot, p.enemies + [es[j]], p.hits)
  {
    assert es[..j + 1][..j] == es[..j];
  }

  /** The outcome of the shot/enemy pass: the shots, the enemies, and every
      (shot index, enemy index) pair that collided. */
  datatype Pass = Pass(shots: seq<S.ShotState>, enemies: seq<E.EnemyState>, hits: seq<(nat, nat)>)

  /** Shot i took part in some collision. */
  predicate ShotScored(hits: seq<(nat, nat)>, i: nat)
  {
    exists n :: 0 <= n < |hits| && hits[n].0 == i
  }

  /** Enemy k was hit by some shot. */
  predicate EnemyShot(hits: seq<(nat, nat)>, k: nat)
  {
    exists n :: 0 <= n < |hits| && hits[n].1 == k
  }

  /** The pairs (i, k) for each k of ks. */
  function Pairs(i: nat, ks: seq<nat>): (r: seq<(nat, nat)>)
    ensures |r| == |ks|
    ensures forall n :: 0 <= n < |ks| ==> r[n] == (i, ks[n])
  {
    seq(|ks|, n requires 0 <= n < |ks| => (i, ks[n]))
  }

  /** Appending shot i's pairs marks shot i as scored when it hit anything
      and no other shot; it marks exactly the enemies it hit. */
  lemma AppendPairs(hits: seq<(nat, nat)>, i: nat, ks: seq<nat>)
    ensures forall j: nat :: ShotScored(hits + Pairs(i, ks), j) <==> ShotScored(hits, j) || (j == i && ks != [])
    ensures forall k: nat :: EnemyShot(hits + Pairs(i, ks), k) <==> EnemyShot(hits, k) || k in ks
  {
    var all := hits + Pairs(i, ks);
    forall j: nat | ShotScored(all, j)
      ensures ShotScored(hits, j) || (j == i && ks != [])
    {
      var n :| 0 <= n < |all| && all[n].0 == j;
      if n >= |hits| {
        assert all[n] == (i, ks[n - |hits|]);
      } else {
        assert hits[n] == all[n];
      }
    }
    forall j: nat | ShotScored(hits, j) || (j == i && ks != [])
      ensures ShotScored(all, j)
    {
      if ShotScored(hits, j) {
        var n :| 0 <= n < |hits| && hits[n].0 == j;
        assert all[n] == hits[n];
      } else {
        assert all[|hits|] == (i, ks[0]);
      }
    }
    forall k: nat | EnemyShot(all, k)
      ensures EnemyShot(hits, k) || k in ks
    {
      var n :| 0 <= n < |all| && all[n].1 == k;
      if n >= |hits| {
        assert all[n] == (i, ks[n - |hits|]);
      } else {
        assert hits[n] == all[n];
      }
    }
    forall k: nat | EnemyShot(hits, k) || k in ks
      ensures EnemyShot(all, k)
    {
      if EnemyShot(hits, k) {
        var n :| 0 <= n < |hits| && hits[n].1 == k;
        assert all[n] == hits[n];
      } else {
        var m :| 0 <= m < |ks| && ks[m] == k;
        assert all[|hits| + m] == (i, k);
      }
    }
  }

  /** The outer loop over shots: an inactive shot is skipped, an active one
      scans the enemies as the earlier shots left them. */
  function ShotPass(shots: seq<S.ShotState>, es: seq<E.EnemyState>, hit: ShotHit): (r: Pass)
    ensures |r.shots| == |shots| && |r.enemies| == |es|
  {
    if shots == [] then Pass([], es, [])
    else
      var i := |shots| - 1;
      var p := ShotPass(shots[..i], es, hit);
      if !S.Active(shots[i]) then
        Pass(p.shots + [shots[i]], p.enemies, p.hits)
      else
        var sc := ScanEnemies(shots[i], p.enemies, hit);
        Pass(p.shots + [sc.shot], sc.enemies, p.hits + Pairs(i, sc.hits))
  }

  /** Appending shot i's pairs, for strictly increasing enemy indices, to
      distinct pairs of earlier shots keeps the pairs distinct. */
  lemma PairsStayDistinct(hits: seq<(nat, nat)>, i: nat, ks: seq<nat>)
    requires forall n :: 0 <= n < |hits| ==> hits[n].0 < i
    requires forall m, n :: 0 <= m < n < |hits| ==> hits[m] != hits[n]
    requires forall m, n :: 0 <= m < n < |ks| ==> ks[m] < ks[n]
    ensures var all := hits + Pairs(i, ks);
      forall m, n :: 0 <= m < n < |all| ==> all[m] != all[n]
  {
  }

  /** Every colliding pair the shot/enemy pass lists names a real shot that
      was active when the pass reached it and a real enemy, and no pair is
      listed twice. */
  lemma {:induction false} PassPairs(shots: seq<S.ShotState>, es: seq<E.EnemyState>, hit: ShotHit)
    ensures var r := ShotPass(shots, es, hit);
      && (forall n :: 0 <= n < |r.hits| ==>
            r.hits[n].0 < |shots| && r.hits[n].1 < |es| && S.Active(shots[r.hits[n].0]))
      && (forall m, n :: 0 <= m < n < |r.hits| ==> r.hits[m] != r.hits[n])
  {
    if shots != [] {
      var i := |shots| - 1;
      PassPairs(shots[..i], es, hit);
      var p := ShotPass(shots[..i], es, hit);
      // Names the earlier pass in the form the recursive call's postcondition uses.
      assert ShotPass(shots[..i], es, hit) == p;
      if S.Active(shots[i]) {
        var sc := ScanEnemies(shots[i], p.enemies, hit);
        ScanEffect(shots[i], p.enemies, hit);
        var all := p.hits + Pairs(i, sc.hits);
        forall n | 0 <= n < |all|
          ensures all[n].0 < |shots| && all[n].1 < |es| && S.Active(shots[all[n].0])
          ensures n < |p.hits| <==> all[n].0 < i
        {
          if n < |p.hits| {
            assert all[n] == p.hits[n] && shots[..i][p.hits[n].0] == shots[p.hits[n].0];
          } else {
            assert all[n] == (i, sc.hits[n - |p.hits|]);
          }
        }
        PairsStayDistinct(p.hits, i, sc.hits);
      } else {
        forall n | 0 <= n < |p.hits|
          ensures S.Active(shots[p.hits[n].0])
        {
          assert shots[..i][p.hits[n].0] == shots[p.hits[n].0];
        }
      }
    }
  }

  /** The pair (i, k) is listed by the shot/enemy pass iff shot i was active
      and its scan, over the enemies as the earlier shots left them, listed
      enemy k. */
  lemma {:induction false} PassListed(shots: seq<S.ShotState>, es: seq<E.EnemyState>, hit: ShotHit, i: nat, k: nat)
    requires i < |shots|
    ensures (i, k) in ShotPass(shots, es, hit).hits <==>
      S.Active(shots[i]) && k in ScanEnemies(shots[i], ShotPass(shots[..i], es, hit).enemies, hit).hits
    decreases |shots|
  {
    var j := |shots| - 1;
    var p := ShotPass(shots[..j], es, hit);
    // Names the earlier pass in the form the postconditions about it use.
    assert ShotPass(shots[..j], es, hit) == p;
    PassPairs(shots[..j], es, hit);
    var r := ShotPass(shots, es, hit);
    if i == j {
      assert (i, k) !in p.hits;
      if S.Active(shots[i]) {
        var sc := ScanEnemies(shots[i], p.enemies, hit);
        assert r.hits == p.hits + Pairs(i, sc.hits);
        if k in sc.hits {
          var m :| 0 <= m < |sc.hits| && sc.hits[m] == k;
          assert r.hits[|p.hits| + m] == (i, k);
        }
        if (i, k) in r.hits {
          var n :| 0 <= n < |r.hits| && r.hits[n] == (i, k);
          assert r.hits[n] == (i, sc.hits[n - |p.hits|]);
        }
      }
    } else {
      PassListed(shots[..j], es, hit, i, k);
      assert shots[..j][..i] == shots[..i];
      if S.Active(shots[j]) {
        var sc := ScanEnemies(shots[j], p.enemies, hit);
        assert r.hits == p.hits + Pairs(j, sc.hits);
        assert forall n :: |p.hits| <= n < |r.hits| ==> r.hits[n].0 == j;
      }
    }
  }

  /** Which pairs the shot/enemy pass lists, and so scores: (i, k) is listed
      iff shot i was active and the collision test held for it (still active
      unless it had hit an earlier enemy) and for enemy k as the earlier
      shots left it. */
  lemma PassHitTest(shots: seq<S.ShotState>, es: seq<E.EnemyState>, hit: ShotHit, i: nat, k: nat)
    requires i < |shots| && k < |es|
    ensures var p := ShotPass(shots[..i], es, hit);
      var sc := ScanEnemies(shots[i], p.enemies, hit);
      (i, k) in ShotPass(shots, es, hit).hits <==> S.Active(shots[i]) && hit(ShotAt(shots[i], sc.hits, k), p.enemies[k])
  {
    PassListed(shots, es, hit, i, k);
    ScanHitTest(shots[i], ShotPass(shots[..i], es, hit).enemies, hit);
  }

  /** A shot in some colliding pair ends the pass deactivated; every other
      shot is untouched. */
  lemma {:induction false} PassShots(shots: seq<S.ShotState>, es: seq<E.EnemyState>, hit: ShotHit)
    ensures var r := ShotPass(shots, es, hit);
      forall i :: 0 <= i < |shots| ==>
        r.shots[i] == if ShotScored(r.hits, i) then shots[i].(status := 0) else shots[i]
  {
    if shots != [] {
      var i := |shots| - 1;
      PassShots(shots[..i], es, hit);
      PassPairs(shots[..i], es, hit);
      var p := ShotPass(shots[..i], es, hit);
      assert !ShotScored(p.hits, i);
      if S.Active(shots[i]) {
        var sc := ScanEnemies(shots[i], p.enemies, hit);
        ScanEffect(shots[i], p.enemies, hit);
        AppendPairs(p.hits, i, sc.hits);
      }
    }
  }

  /** An enemy in some colliding pair ends the pass exploded; every other
      enemy is untouched. */
  lemma {:induction false} PassEnemies(shots: seq<S.ShotState>, es: seq<E.EnemyState>, hit: ShotHit)
    ensures var r := ShotPass(shots, es, hit);
      forall k :: 0 <= k < |es| ==>
        r.enemies[k] == if EnemyShot(r.hits, k) then E.Exploded(es[k]) else es[k]
  {
    if shots != [] {
      var i := |shots| - 1;
      PassEnemies(shots[..i], es, hit);
      var p := ShotPass(shots[..i], es, hit);
      if S.Active(shots[i]) {
        var sc := ScanEnemies(shots[i], p.enemies, hit);
        ScanEffect(shots[i], p.enemies, hit);
        AppendPairs(p.hits, i, sc.hits);
        forall k | 0 <= k < |es| {
          E.ExplodeIdempotent(es[k]);
        }
      }
    }
  }

  /** The pass does not stop a shot at its first hit: with a collision test
      that always holds, one active shot explodes both of two enemies and
      scores twice. */
  lemma OneShotHitsSeveral(shot: S.ShotState, e0: E.EnemyState, e1: E.EnemyState)
    requires S.Active(shot)
    ensures var r := ShotPass([shot], [e0, e1], (s, e) => true);
      && r.hits == [(0, 0), (0, 1)]
      && r.enemies == [E.Exploded(e0), E.Exploded(e1)]
      && r.shots == [shot.(status := 0)]
  {
    var always: ShotHit := (s, e) => true;
    assert [shot][..0] == [];
    assert [e0, e1][..1] == [e0];
    assert [e0][..0] == [];
    assert ScanEnemies(shot, [], always) == Scan(shot, [], []);
    assert always(shot, e0) && always(shot.(status := 0), e1);
    var first := ScanEnemies(shot, [e0], always);
    assert first == Scan(shot.(status := 0), [E.Exploded(e0)], [0]);
    var both := ScanEnemies(shot, [e0, e1], always);
    assert both == Scan(shot.(status := 0), [E.Exploded(e0), E.Exploded(e1)], [0, 1]);
  }

  /** One more shot processed: ShotPass unfolded at its last step. */
  lemma PassOneMore(shots: seq<S.ShotState>, es: seq<E.EnemyState>, i: nat, hit: ShotHit)
    requires i < |shots|
    ensures var p := ShotPass(shots[..i], es, hit);
      ShotPass(shots[..i + 1], es, hit) ==
        if !S.Active(shots[i]) then Pass(p.shots + [shots[i]], p.enemies, p.hits)
        else
          var sc := ScanEnemies(shots[i], p.enemies, hit);
          Pass(p.shots + [sc.shot], sc.enemies, p.hits + Pairs(i, sc.hits))
  {
    assert shots[..i + 1][..i] == shots[..i];
  }

  /** The index of the first enemy the player collides with, if any. */
  function FirstHit(player: P.ShipState, es: seq<E.EnemyState>, hit: PlayerHit): (r: Option<nat>)
    ensures r.Some? ==>
      && r.value < |es|
      && hit(player, es[r.value])
      && forall j :: 0 <= j < r.value ==> !hit(player, es[j])
    ensures r.None? ==> forall j :: 0 <= j < |es| ==> !hit(player, es[j])
  {
    if es == [] then None
    else if hit(player, es[0]) then Some(0)
    else
      match FirstHit(player, es[1..], hit)
      case None => None
      case Some(k) => Some(k + 1)
  }

  /** The player/enemy pass: the first collision explodes the player and ends
      the pass; without one the player is untouched. */
  function PlayerPass(player: P.ShipState, es: seq<E.EnemyState>, hit: PlayerHit): (r: P.ShipState)
    ensures (exists j :: 0 <= j < |es| && hit(player, es[j])) ==> r == P.Exploded(player)
    ensures (forall j :: 0 <= j < |es| ==> !hit(player, es[j])) ==> r == player
  {
    if FirstHit(player, es, hit).Some? then P.Exploded(player) else player
  }
}
