/** The game session: one player ship, the vectors of enemies, shots and
    power-ups, the counters, and the per-tick pipeline of `loop`. */
module Session {
  import opened Screen
  import P = Player
  import E = Enemies
  import S = Shots
  import U = PowerUps
  import C = Collisions

  /** The fields of a Game at one moment. */
  datatype GameState = GameState(
    level: Byte,
    maxLevelReached: Byte,
    difficulty: Byte,
    score: int,
    highScore: int,
    player: P.ShipState,
    enemies: seq<E.EnemyState>,
    shots: seq<S.ShotState>,
    powerUps: seq<U.PowerUpState>)

  /** The position the input handler leaves the ship at during one tick. */
  datatype Input = Input(x: Byte, y: Byte)

  /** What `updateScore` leaves in highScore: the larger of the two. */
  function HighScore(score: int, highScore: int): (r: int)
    ensures r >= score && r >= highScore
    ensures r == score || r == highScore
  {
    if score > highScore then score else highScore
  }

  /** A second `updateScore` changes nothing. */
  lemma UpdateScoreIdempotent(score: int, highScore: int)
    ensures HighScore(score, HighScore(score, highScore)) == HighScore(score, highScore)
  {
  }

  /** An enemy as `spawnEnemies` creates it: a random type 0, 1 or 2. */
  predicate IsNewEnemy(e: E.EnemyState)
  {
    e.kind < 3 && E.IsSpawned(e, e.kind)
  }

  /** A spawned enemy has 10, 20 or 30 hit points. */
  lemma NewEnemyHitPoints(e: E.EnemyState)
    requires IsNewEnemy(e)
    ensures e.hitPoints in {10, 20, 30}
  {
  }

  /** Every enemy moved once. */
  function StepEnemies(es: seq<E.EnemyState>): (r: seq<E.EnemyState>)
    ensures |r| == |es|
    ensures forall k :: 0 <= k < |es| ==> r[k] == E.Step(es[k])
  {
    seq(|es|, k requires 0 <= k < |es| => E.Step(es[k]))
  }

  /** Every shot moved once. */
  function StepShots(ss: seq<S.ShotState>): (r: seq<S.ShotState>)
    ensures |r| == |ss|
    ensures forall k :: 0 <= k < |ss| ==> r[k] == S.Step(ss[k])
  {
    seq(|ss|, k requires 0 <= k < |ss| => S.Step(ss[k]))
  }

  /** Every power-up moved once. */
  function StepPowerUps(ps: seq<U.PowerUpState>): (r: seq<U.PowerUpState>)
    ensures |r| == |ps|
    ensures forall k :: 0 <= k < |ps| ==> r[k] == U.Step(ps[k])
  {
    seq(|ps|, k requires 0 <= k < |ps| => U.Step(ps[k]))
  }

  /** The movement phase of a tick: the ship, then every enemy, shot and power-up. */
  function Advance(g: GameState, input: Input): (r: GameState)
    ensures r.player.x <= MaxColumn && r.player.y <= MaxRow && r.player.shieldEnergy == g.player.shieldEnergy
    ensures |r.enemies| == |g.enemies| && |r.shots| == |g.shots| && |r.powerUps| == |g.powerUps|
    ensures r.(player := g.player, enemies := g.enemies, shots := g.shots, powerUps := g.powerUps) == g
  {
    g.(player := P.Moved(g.player, input.x, input.y),
       enemies := StepEnemies(g.enemies),
       shots := StepShots(g.shots),
       powerUps := StepPowerUps(g.powerUps))
  }

  /** The shot/enemy pass, with 100 points per colliding pair. */
  function ResolveShots(g: GameState, hit: C.ShotHit): (r: GameState)
    ensures |r.enemies| == |g.enemies| && |r.shots| == |g.shots|
    ensures r.score >= g.score && (r.score - g.score) % C.Reward == 0
    ensures r.(shots := g.shots, enemies := g.enemies, score := g.score) == g
  {
    var p := C.ShotPass(g.shots, g.enemies, hit);
    g.(shots := p.shots, enemies := p.enemies, score := g.score + C.Reward * |p.hits|)
  }

  /** The player/enemy pass. */
  function ResolvePlayer(g: GameState, hit: C.PlayerHit): (r: GameState)
    ensures (exists j :: 0 <= j < |g.enemies| && hit(g.player, g.enemies[j])) ==>
      r == g.(player := P.Exploded(g.player))
    ensures (forall j :: 0 <= j < |g.enemies| ==> !hit(g.player, g.enemies[j])) ==> r == g
  {
    g.(player := C.PlayerPass(g.player, g.enemies, hit))
  }

  /** One call of `loop`: move, resolve collisions, update the high score. */
  function Tick(g: GameState, input: Input, shotHit: C.ShotHit, playerHit: C.PlayerHit): (r: GameState)
    ensures |r.enemies| == |g.enemies| && |r.shots| == |g.shots| && |r.powerUps| == |g.powerUps|
    ensures r.level == g.level && r.maxLevelReached == g.maxLevelReached && r.difficulty == g.difficulty
    ensures r.score >= g.score
    ensures r.highScore == HighScore(r.score, g.highScore)
    ensures r.player.x <= MaxColumn && r.player.y <= MaxRow
    ensures r.player.shieldEnergy == g.player.shieldEnergy || r.player.shieldEnergy == 0
  {
    var moved := ResolvePlayer(ResolveShots(Advance(g, input), shotHit), playerHit);
    moved.(highScore := HighScore(moved.score, moved.highScore))
  }

  /** In one tick every entity moves exactly once: each enemy is moved and
      possibly exploded, each shot moved and possibly deactivated, each
      power-up only moved. */
  lemma TickMovesEachOnce(g: GameState, input: Input, shotHit: C.ShotHit, playerHit: C.PlayerHit)
    ensures var r := Tick(g, input, shotHit, playerHit);
      && (forall k :: 0 <= k < |g.enemies| ==>
            r.enemies[k] == E.Step(g.enemies[k]) || r.enemies[k] == E.Exploded(E.Step(g.enemies[k])))
      && (forall k :: 0 <= k < |g.shots| ==>
            r.shots[k] == S.Step(g.shots[k]) || r.shots[k] == S.Step(g.shots[k]).(status := 0))
      && (forall k :: 0 <= k < |g.powerUps| ==> r.powerUps[k] == U.Step(g.powerUps[k]))
  {
    var advanced := Advance(g, input);
    C.PassShots(advanced.shots, advanced.enemies, shotHit);
    C.PassEnemies(advanced.shots, advanced.enemies, shotHit);
  }

  /** What `checkGameOver` tests. */
  predicate GameOver(g: GameState)
  {
    g.player.shieldEnergy <= 0
  }

  /** Consecutive calls of `loop`, one per input. */
  function Run(g: GameState, inputs: seq<Input>, shotHit: C.ShotHit, playerHit: C.PlayerHit): (r: GameState)
    ensures |r.enemies| == |g.enemies| && |r.shots| == |g.shots| && |r.powerUps| == |g.powerUps|
    ensures r.level == g.level && r.maxLevelReached == g.maxLevelReached && r.difficulty == g.difficulty
    ensures r.score >= g.score
    ensures inputs != [] ==> r.player.x <= MaxColumn && r.player.y <= MaxRow
  {
    if inputs == [] then g
    else
      var n := |inputs| - 1;
      Tick(Run(g, inputs[..n], shotHit, playerHit), inputs[n], shotHit, playerHit)
  }

  /** Starting from a record at least as high as the score, over any number
      of ticks the vectors keep their lengths, the score never decreases and
      highScore ends up as the best score seen (the score only grows, so that
      is the final one unless the record was higher). */
  lemma {:induction false} RunKeepsRecord(g: GameState, inputs: seq<Input>, shotHit: C.ShotHit, playerHit: C.PlayerHit)
    requires g.highScore >= g.score
    ensures var r := Run(g, inputs, shotHit, playerHit);
      && |r.enemies| == |g.enemies| && |r.shots| == |g.shots| && |r.powerUps| == |g.powerUps|
      && r.score >= g.score
      && r.highScore == HighScore(r.score, g.highScore)
  {
    if inputs != [] {
      var n := |inputs| - 1;
      var before := Run(g, inputs[..n], shotHit, playerHit);
      RunKeepsRecord(g, inputs[..n], shotHit, playerHit);
      var after := Tick(before, inputs[n], shotHit, playerHit);
      assert after.score >= before.score;
      assert after.highScore == HighScore(after.score, HighScore(before.score, g.highScore));
    }
  }

  /** The game's entry point runs `loop` on a statically allocated game and
      never calls `setup`, so the ship keeps its zero shield and the game-over
      condition (shield at most 0) holds after every tick. On that path the
      display is never initialised either; the drawing is outside the model. */
  lemma GameOverWithoutSetup(g: GameState, input: Input, shotHit: C.ShotHit, playerHit: C.PlayerHit)
    requires g.player.shieldEnergy == 0
    ensures GameOver(Tick(g, input, shotHit, playerHit))
  {
  }

  /** The state `setup` leaves. */
  predicate IsSetUp(g: GameState)
  {
    && g.level == 1 && g.maxLevelReached == 1 && g.difficulty == 1
    && g.score == 0 && g.highScore == 0
    && g.player == P.Spawn
    && g.shots == [] && g.powerUps == []
    && |g.enemies| == 1 && IsNewEnemy(g.enemies[0])
  }

  /** Nothing in the session ever adds a shot or a power-up, and after `setup`
      highScore follows the score exactly. */
  lemma {:induction false} SessionAfterSetup(g: GameState, inputs: seq<Input>, shotHit: C.ShotHit, playerHit: C.PlayerHit)
    requires IsSetUp(g)
    ensures var r := Run(g, inputs, shotHit, playerHit);
      && r.shots == [] && r.powerUps == [] && |r.enemies| == 1
      && r.highScore == r.score
  {
    RunKeepsRecord(g, inputs, shotHit, playerHit);
  }

  predicate Distinct<T(==)>(s: seq<T>)
  {
    forall i, j :: 0 <= i < j < |s| ==> s[i] != s[j]
  }

  function EnemyStates(es: seq<E.Enemy>): (r: seq<E.EnemyState>)
    reads es
    ensures |r| == |es|
    ensures forall k :: 0 <= k < |es| ==> r[k] == es[k].State()
  {
    seq(|es|, k reads es requires 0 <= k < |es| => es[k].State())
  }

  function ShotStates(ss: seq<S.Shot>): (r: seq<S.ShotState>)
    reads ss
    ensures |r| == |ss|
    ensures forall k :: 0 <= k < |ss| ==> r[k] == ss[k].State()
  {
    seq(|ss|, k reads ss requires 0 <= k < |ss| => ss[k].State())
  }

  function PowerUpStates(ps: seq<U.PowerUp>): (r: seq<U.PowerUpState>)
    reads ps
    ensures |r| == |ps|
    ensures forall k :: 0 <= k < |ps| ==> r[k] == ps[k].State()
  {
    seq(|ps|, k reads ps requires 0 <= k < |ps| => ps[k].State())
  }

  class Game {
    var level: Byte
    var maxLevelReached: Byte
    var difficulty: Byte
    var score: int
    var highScore: int
    const player: P.PlayerShip
    var enemies: seq<E.Enemy>
    var shots: seq<S.Shot>
    var powerUps: seq<U.PowerUp>

    /** The vectors hold their elements by value, so no two entries are the same object. */
    ghost predicate Valid()
      reads this
    {
      Distinct(enemies) && Distinct(shots) && Distinct(powerUps)
    }

    /** The fields as a value. */
    function State(): GameState
      reads this, player, enemies, shots, powerUps
    {
      GameState(level, maxLevelReached, difficulty, score, highScore,
                player.State(), EnemyStates(enemies), ShotStates(shots), PowerUpStates(powerUps))
    }

    /** The statically allocated game, all of whose fields start at zero. */
    constructor ()
      ensures Valid() && fresh(player)
      ensures State() == GameState(0, 0, 0, 0, 0, P.ShipState(0, 0, 0), [], [], [])
    {
      level, maxLevelReached, difficulty := 0, 0, 0;
      score, highScore := 0, 0;
      player := new P.PlayerShip();
      enemies, shots, powerUps := [], [], [];
    }

    method Setup()
      modifies this, player
      ensures Valid()
      ensures IsSetUp(State())
      ensures fresh(enemies[0])
    {
      player.Initialize();
      level := 1;
      maxLevelReached := 1;
      difficulty := 1;
      score := 0;
      highScore := 0;
      enemies := [];
      shots := [];
      powerUps := [];
      SpawnEnemies();
    }

    /** `selectDifficulty`: the only assignment it makes. */
    method SelectDifficulty()
      modifies this`difficulty
      ensures difficulty == 1
    {
      difficulty := 1;
    }

    /** `selectLevel`: the only assignment it makes. */
    method SelectLevel()
      modifies this`level
      ensures level == 1
    {
      level := 1;
    }

    /** `spawnEnemies`: appends level * difficulty new enemies of random type. */
    method SpawnEnemies()
      requires Valid()
      modifies this`enemies
      ensures Valid()
      ensures |enemies| == old(|enemies|) + level * difficulty
      ensures enemies[..old(|enemies|)] == old(enemies)
      ensures forall k :: old(|enemies|) <= k < |enemies| ==> fresh(enemies[k]) && IsNewEnemy(enemies[k].State())
    {
      var i := 0;
      while i < level * difficulty
        invariant 0 <= i <= level * difficulty
        invariant |enemies| == old(|enemies|) + i
        invariant enemies[..old(|enemies|)] == old(enemies)
        invariant forall k :: old(|enemies|) <= k < |enemies| ==> fresh(enemies[k]) && IsNewEnemy(enemies[k].State())
        invariant Valid()
      {
        var enemy := new E.Enemy();
        var roll: nat :| true;
        enemy.Initialize(roll % 3);
        enemies := enemies + [enemy];
        i := i + 1;
      }
    }

    /** The enemy loop of `loop`. */
    method MoveEnemies()
      requires Valid()
      modifies enemies
      ensures State() == old(State()).(enemies := StepEnemies(old(EnemyStates(enemies))))
    {
      for k := 0 to |enemies|
        invariant forall j :: 0 <= j < |enemies| ==>
          enemies[j].State() == if j < k then E.Step(old(enemies[j].State())) else old(enemies[j].State())
      {
        enemies[k].Move();
      }
    }

    /** The shot loop of `loop` (drawing only active shots is left out). */
    method MoveShots()
      requires Valid()
      modifies shots
      ensures State() == old(State()).(shots := StepShots(old(ShotStates(shots))))
    {
      for k := 0 to |shots|
        invariant forall j :: 0 <= j < |shots| ==>
          shots[j].State() == if j < k then S.Step(old(shots[j].State())) else old(shots[j].State())
      {
        shots[k].Move();
      }
    }

    /** The power-up loop of `loop` (drawing only active power-ups is left out). */
    method MovePowerUps()
      requires Valid()
      modifies powerUps
      ensures State() == old(State()).(powerUps := StepPowerUps(old(PowerUpStates(powerUps))))
    {
      for k := 0 to |powerUps|
        invariant forall j :: 0 <= j < |powerUps| ==>
          powerUps[j].State() == if j < k then U.Step(old(powerUps[j].State())) else old(powerUps[j].State())
      {
        powerUps[k].Move();
      }
    }
    /** One iteration of the outer loop of the shot/enemy pass, for shot i,
        with the enemies in the states es: an inactive shot is skipped, an
        active one scans the enemies. */
    method CollideShot(i: nat, hit: C.ShotHit, ghost es: seq<E.EnemyState>)
      requires Valid() && i < |shots|
      requires |es| == |enemies| && forall k :: 0 <= k < |enemies| ==> enemies[k].State() == es[k]
      modifies this`score, shots[i], enemies
      ensures var sc := if S.Active(old(shots[i].State())) then C.ScanEnemies(old(shots[i].State()), es, hit)
                        else C.Scan(old(shots[i].State()), es, []);
        && shots[i].State() == sc.shot
        && (forall k :: 0 <= k < |enemies| ==> enemies[k].State() == sc.enemies[k])
        && score == old(score) + C.Reward * |sc.hits|
      ensures forall k :: 0 <= k < |shots| && k != i ==> shots[k].State() == old(shots[k].State())
    {
      var active := shots[i].IsActive();
      if active {
        ScanShot(i, hit, es);
      }
    }

    /** The inner loop of the shot/enemy pass for the active shot i: it is
        tested against every enemy, and each collision explodes the enemy,
        deactivates the shot and scores 100. */
    method ScanShot(i: nat, hit: C.ShotHit, ghost es: seq<E.EnemyState>)
      requires Valid() && i < |shots| && S.Active(shots[i].State())
      requires |es| == |enemies| && forall k :: 0 <= k < |enemies| ==> enemies[k].State() == es[k]
      modifies this`score, shots[i], enemies
      ensures var sc := C.ScanEnemies(old(shots[i].State()), es, hit);
        && shots[i].State() == sc.shot
        && (forall k :: 0 <= k < |enemies| ==> enemies[k].State() == sc.enemies[k])
        && score == old(score) + C.Reward * |sc.hits|
    {
      ghost var shot0 := shots[i].State();
      ghost var sc := C.Scan(shot0, [], []);
      for j := 0 to |enemies|
        invariant sc == C.ScanEnemies(shot0, es[..j], hit)
        invariant shots[i].State() == sc.shot
        invariant forall k :: 0 <= k < j ==> enemies[k].State() == sc.enemies[k]
        invariant forall k :: j <= k < |enemies| ==> enemies[k].State() == es[k]
        invariant score == old(score) + C.Reward * |sc.hits|
      {
        C.ScanOneMore(shot0, es, j, hit);
        if hit(shots[i].State(), enemies[j].State()) {
          ScoreHit(i, j);
          sc := C.Scan(sc.shot.(status := 0), sc.enemies + [E.Exploded(es[j])], sc.hits + [j]);
        } else {
          sc := C.Scan(sc.shot, sc.enemies + [es[j]], sc.hits);
        }
      }
      assert es[..|enemies|] == es;
    }

    /** One collision found by the inner loop: the enemy explodes, the shot
        is deactivated and 100 points are scored. */
    method ScoreHit(i: nat, j: nat)
      requires Valid() && i < |shots| && j < |enemies|
      modifies this`score, shots[i], enemies[j]
      ensures shots[i].State() == old(shots[i].State()).(status := 0)
      ensures enemies[j].State() == E.Exploded(old(enemies[j].State()))
      ensures forall k :: 0 <= k < |enemies| && k != j ==> enemies[k].State() == old(enemies[k].State())
      ensures score == old(score) + C.Reward
    {
      enemies[j].Explode();
      shots[i].Deactivate();
      score := score + 100;
    }

    /** The shot/enemy pass of `handleCollisions`. */
    method ResolveShotHits(hit: C.ShotHit)
      requires Valid()
      modifies this`score, shots, enemies
      ensures var p := C.ShotPass(old(ShotStates(shots)), old(EnemyStates(enemies)), hit);
        && (forall k :: 0 <= k < |shots| ==> shots[k].State() == p.shots[k])
        && (forall k :: 0 <= k < |enemies| ==> enemies[k].State() == p.enemies[k])
        && score == old(score) + C.Reward * |p.hits|
    {
      ghost var shots0 := ShotStates(shots);
      ghost var enemies0 := EnemyStates(enemies);
      ghost var score0 := score;
      ghost var pass := C.Pass([], enemies0, []);
      for i := 0 to |shots|
        invariant pass == C.ShotPass(shots0[..i], enemies0, hit)
        invariant forall k :: 0 <= k < i ==> shots[k].State() == pass.shots[k]
        invariant forall k :: i <= k < |shots| ==> shots[k].State() == shots0[k]
        invariant forall k :: 0 <= k < |enemies| ==> enemies[k].State() == pass.enemies[k]
        invariant score == score0 + C.Reward * |pass.hits|
      {
        C.PassOneMore(shots0, enemies0, i, hit);
        CollideShot(i, hit, pass.enemies);
        pass := C.ShotPass(shots0[..i + 1], enemies0, hit);
      }
      assert shots0[..|shots|] == shots0;
    }

    /** The player/enemy pass of `handleCollisions`: at the first enemy that
        collides with the player, the player explodes, the game-over check
        runs and the pass ends. */
    method ResolvePlayerHit(hit: C.PlayerHit) returns (gameOver: bool)
      requires Valid()
      modifies player
      ensures State() == ResolvePlayer(old(State()), hit)
      ensures gameOver <==> C.FirstHit(old(player.State()), EnemyStates(enemies), hit).Some?
    {
      gameOver := false;
      for k := 0 to |enemies|
        invariant player.State() == old(player.State())
        invariant forall j :: 0 <= j < k ==> !hit(player.State(), enemies[j].State())
      {
        if hit(player.State(), enemies[k].State()) {
          player.Explode();
          gameOver := CheckGameOver();
          return;
        }
      }
    }

    /** `handleCollisions`: the shot/enemy pass, then the player/enemy pass.
        The result is what the game-over check inside the player pass reports
        (false when no enemy collides with the player). */
    method HandleCollisions(shotHit: C.ShotHit, playerHit: C.PlayerHit) returns (gameOver: bool)
      requires Valid()
      modifies this`score, player, shots, enemies
      ensures enemies == old(enemies) && shots == old(shots) && powerUps == old(powerUps)
      ensures State() == ResolvePlayer(ResolveShots(old(State()), shotHit), playerHit)
      ensures gameOver <==> exists j :: 0 <= j < |enemies| && playerHit(old(player.State()), EnemyStates(enemies)[j])
    {
      ghost var g0 := State();
      ResolveShotHits(shotHit);
      ghost var p := C.ShotPass(g0.shots, g0.enemies, shotHit);
      assert ShotStates(shots) == p.shots && EnemyStates(enemies) == p.enemies;
      assert State() == ResolveShots(g0, shotHit);
      gameOver := ResolvePlayerHit(playerHit);
    }

    /** `updateScore`: the high score catches up with the score. */
    method UpdateScore()
      modifies this`highScore
      ensures State() == old(State()).(highScore := HighScore(score, old(highScore)))
    {
      if score > highScore {
        highScore := score;
      }
    }

    /** `checkGameOver`: whether it announces the end of the game. */
    method CheckGameOver() returns (gameOver: bool)
      ensures gameOver <==> player.shieldEnergy <= 0
    {
      var energy := player.GetShieldEnergy();
      gameOver := energy <= 0;
    }

    /** The movement phase of `loop`: the ship, then every enemy, shot and
        power-up, each moved once. */
    method AdvanceAll(input: Input)
      requires Valid()
      modifies player, enemies, shots, powerUps
      ensures unchanged(this)
      ensures State() == Advance(old(State()), input)
    {
      player.Move(input.x, input.y);
      MoveEnemies();
      MoveShots();
      MovePowerUps();
    }

    /** `loop`: move everything once, resolve collisions, update the high
        score, check for game over. */
    method Loop(input: Input, shotHit: C.ShotHit, playerHit: C.PlayerHit) returns (gameOver: bool)
      requires Valid()
      modifies this, player, enemies, shots, powerUps
      ensures Valid()
      ensures enemies == old(enemies) && shots == old(shots) && powerUps == old(powerUps)
      ensures State() == Tick(old(State()), input, shotHit, playerHit)
      ensures gameOver <==> GameOver(State())
    {
      AdvanceAll(input);
      var _ := HandleCollisions(shotHit, playerHit);
      UpdateScore();
      gameOver := CheckGameOver();
    }
  }
}
