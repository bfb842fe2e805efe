/** The spawn scheduler and the enemy pass of updateEnemies. */
module Enemies {
  import opened Geometry
  import opened PlayerController
  import opened Scrolling

  /** The population cap (maxEnemies, never reassigned). */
  const MaxEnemies: nat := 5
  /** The floor of the spawn interval, in milliseconds. */
  const MinFrequency: real := 2500.0

  /** The two draws a spawn consumes: the height offset and the speed factor. */
  datatype EnemyDraw = EnemyDraw(ry: real, rs: real)

  /** A new enemy is due: the interval has elapsed and the cap is not reached. */
  predicate SpawnDue(timestamp: real, lastSpawn: real, frequency: real, count: nat)
  {
    timestamp - lastSpawn > frequency && count < MaxEnemies
  }

  /** The enemy pushed on a spawn: at the right edge, 50 by 50, between 70
      and 120 units above the bottom, and with a speed between one and two
      times the game speed. */
  function Spawned(c: Canvas, gameSpeed: real, d: EnemyDraw): (e: Enemy)
    requires Unit(d.ry) && Unit(d.rs)
    ensures e.x == c.width && e.width == 50.0 && e.height == 50.0
    ensures c.height - 120.0 < e.y <= c.height - 70.0
    ensures gameSpeed >= 0.0 ==> gameSpeed <= e.speed <= 2.0 * gameSpeed
  {
    assert gameSpeed >= 0.0 ==> gameSpeed * d.rs <= gameSpeed;
    Enemy(c.width, c.height - 70.0 - d.ry * 50.0, 50.0, 50.0, gameSpeed * (1.0 + d.rs))
  }

  /** The spawn interval after a spawn: 50 shorter, but not below the floor.
      It never rises once at or above the floor and never leaves it. */
  function NextFrequency(f: real): (r: real)
    ensures r >= MinFrequency
    ensures f >= MinFrequency ==> r <= f
    ensures f - 50.0 >= MinFrequency ==> r == f - 50.0
    ensures f - 50.0 < MinFrequency ==> r == MinFrequency
  {
    if MinFrequency > f - 50.0 then MinFrequency else f - 50.0
  }

  /** An enemy moved left by its own speed. */
  function Advanced(e: Enemy): Enemy
  {
    e.(x := e.x - e.speed)
  }

  /** Moved by its speed, the enemy has passed the left edge entirely. */
  predicate LeavesScreen(e: Enemy)
  {
    Advanced(e).x + Advanced(e).width < 0.0
  }

  /** Iteration k of the forEach: if index k still exists, move that enemy
      and, if it has left the screen, drop the FRONT of the queue (shift). */
  function EnemyStep(es: seq<Enemy>, k: nat): seq<Enemy>
  {
    if k < |es| then
      var moved := es[k := Advanced(es[k])];
      if LeavesScreen(es[k]) then moved[1..] else moved
    else es
  }

  /** The shape of the queue r after the first n iterations of the pass
      over es: only the front was removed, each survivor has moved at most
      once by its own speed, those not yet visited are untouched, and when
      nothing was removed every visited enemy moved exactly once. */
  ghost predicate PassShape(es: seq<Enemy>, r: seq<Enemy>, n: nat)
  {
    && |r| <= |es| && |es| - |r| <= n
    && (forall j :: 0 <= j < |r| ==>
          r[j] == es[j + (|es| - |r|)] || r[j] == Advanced(es[j + (|es| - |r|)]))
    && (forall j :: n <= j < |r| ==> r[j] == es[j + (|es| - |r|)])
    && (|r| == |es| ==> forall j :: 0 <= j < n && j < |r| ==> r[j] == Advanced(es[j]))
  }

  /** One iteration keeps the shape. */
  lemma EnemyStepKeepsShape(es: seq<Enemy>, prev: seq<Enemy>, k: nat)
    requires PassShape(es, prev, k)
    ensures PassShape(es, EnemyStep(prev, k), k + 1)
  {
    if k < |prev| {
      if LeavesScreen(prev[k]) {
        ShiftKeepsShape(es, prev, k);
      } else {
        MoveKeepsShape(es, prev, k);
      }
    }
  }

  /** The iteration that moves an enemy and keeps it. */
  lemma MoveKeepsShape(es: seq<Enemy>, prev: seq<Enemy>, k: nat)
    requires PassShape(es, prev, k) && k < |prev|
    requires !LeavesScreen(prev[k])
    ensures PassShape(es, EnemyStep(prev, k), k + 1)
  {
    var d := |es| - |prev|;
    var r := EnemyStep(prev, k);
    assert r == prev[k := Advanced(prev[k])];
    assert |r| == |prev|;
    assert prev[k] == es[k + d];
    forall j | 0 <= j < |r|
      ensures r[j] == es[j + d] || r[j] == Advanced(es[j + d])
      ensures k + 1 <= j ==> r[j] == es[j + d]
      ensures d == 0 && j < k + 1 ==> r[j] == Advanced(es[j])
    {
      if j != k {
        assert r[j] == prev[j];
      }
    }
  }

  /** The iteration that moves an enemy off the screen and shifts the front. */
  lemma ShiftKeepsShape(es: seq<Enemy>, prev: seq<Enemy>, k: nat)
    requires PassShape(es, prev, k) && k < |prev|
    requires LeavesScreen(prev[k])
    ensures PassShape(es, EnemyStep(prev, k), k + 1)
  {
    var d := |es| - |prev|;
    var moved := prev[k := Advanced(prev[k])];
    var r := moved[1..];
    assert EnemyStep(prev, k) == r;
    assert |es| - |r| == d + 1;
    forall j | 0 <= j < |r|
      ensures r[j] == es[j + (|es| - |r|)] || r[j] == Advanced(es[j + (|es| - |r|)])
      ensures k + 1 <= j ==> r[j] == es[j + (|es| - |r|)]
    {
      assert r[j] == moved[j + 1];
      if j + 1 == k {
        assert prev[k] == es[k + d];
      } else {
        assert moved[j + 1] == prev[j + 1];
      }
    }
  }

  /** The forEach after its first n iterations. It never adds an enemy and
      removes at most one per iteration. */
  function EnemiesPass(es: seq<Enemy>, n: nat): (r: seq<Enemy>)
    ensures |r| <= |es| && |es| - |r| <= n
    decreases n
  {
    if n == 0 then es else EnemyStep(EnemiesPass(es, n - 1), n - 1)
  }

  /** The pass removes only from the front, moves each survivor at most
      once and by its own speed, leaves the not yet visited ones untouched,
      and moves every visited enemy exactly once when nothing was removed. */
  lemma {:induction false} EnemiesPassShape(es: seq<Enemy>, n: nat)
    ensures PassShape(es, EnemiesPass(es, n), n)
  {
    if n > 0 {
      EnemiesPassShape(es, n - 1);
      EnemyStepKeepsShape(es, EnemiesPass(es, n - 1), n - 1);
    }
  }

  /** Iteration k of the pass over es shifts the queue: index k still
      exists when it is visited and its enemy, once moved, is off screen. */
  predicate ShiftsAt(es: seq<Enemy>, k: nat)
  {
    var prev := EnemiesPass(es, k);
    k < |prev| && LeavesScreen(prev[k])
  }

  /** The iterations among the first n that shift the queue. */
  function Removals(es: seq<Enemy>, n: nat): set<nat>
    decreases n
  {
    if n == 0 then {}
    else Removals(es, n - 1) + if ShiftsAt(es, n - 1) then {n - 1} else {}
  }

  /** An iteration is in Removals exactly when it is among the first n and
      shifts the queue. */
  lemma {:induction false} RemovalMembers(es: seq<Enemy>, n: nat, k: nat)
    ensures k in Removals(es, n) <==> k < n && ShiftsAt(es, k)
    decreases n
  {
    if n > 0 {
      RemovalMembers(es, n - 1, k);
    }
  }

  /** The pass removes exactly one enemy per visited enemy that leaves the
      screen, and no other. */
  lemma {:induction false} RemovalCount(es: seq<Enemy>, n: nat)
    ensures |es| - |EnemiesPass(es, n)| == |Removals(es, n)|
    decreases n
  {
    if n > 0 {
      RemovalCount(es, n - 1);
      RemovalsGrow(es, n);
      PassShrinks(es, n);
    }
  }

  /** Iteration n - 1 joins Removals exactly when it shifts the queue. */
  lemma RemovalsGrow(es: seq<Enemy>, n: nat)
    requires n > 0
    ensures |Removals(es, n)| == |Removals(es, n - 1)| + if ShiftsAt(es, n - 1) then 1 else 0
  {
    RemovalMembers(es, n - 1, n - 1);
  }

  /** Iteration n - 1 shortens the queue by one exactly when it shifts it. */
  lemma PassShrinks(es: seq<Enemy>, n: nat)
    requires n > 0
    ensures |EnemiesPass(es, n)| == |EnemiesPass(es, n - 1)| - if ShiftsAt(es, n - 1) then 1 else 0
  {
  }

  /** While no visited enemy leaves the screen, the pass is a plain move:
      the first n enemies advanced by their own speed, the rest untouched. */
  lemma PassWithoutRemoval(es: seq<Enemy>, n: nat)
    requires Removals(es, n) == {}
    ensures |EnemiesPass(es, n)| == |es|
    ensures forall j :: 0 <= j < |es| ==> EnemiesPass(es, n)[j] == if j < n then Advanced(es[j]) else es[j]
  {
    RemovalCount(es, n);
    EnemiesPassShape(es, n);
    var r := EnemiesPass(es, n);
    assert |es| - |r| == 0;
    forall j | 0 <= j < |es|
      ensures r[j] == if j < n then Advanced(es[j]) else es[j]
    {
      assert r[j] == es[j] || r[j] == Advanced(es[j]);
    }
  }

  /** The skip of the forEach/shift combination in general: when iteration
      k shifts the queue, the enemy that slides into index k has not been
      moved yet, and no later iteration moves it, since they visit only the
      indices after k while it only slides towards the front. */
  lemma SlidEnemyNeverMoves(es: seq<Enemy>, k: nat, n: nat)
    requires k < n && ShiftsAt(es, k) && k < |EnemiesPass(es, k + 1)|
    ensures var m := EnemiesPass(es, k + 1);
            var r := EnemiesPass(es, n);
            && m[k] == es[k + (|es| - |m|)]
            && |r| <= |m|
            && (|m| - |r| <= k ==> r[k - (|m| - |r|)] == m[k])
  {
    SlidEnemyUnmoved(es, k);
    VisitedStayPut(es, k, n);
  }

  /** Once iteration k is done, the enemy then at index k is not moved by
      the later iterations: it only slides towards the front, one index per
      shift, while they visit the indices after k. */
  lemma {:induction false} VisitedStayPut(es: seq<Enemy>, k: nat, n: nat)
    requires k < n && k < |EnemiesPass(es, k + 1)|
    ensures var m := EnemiesPass(es, k + 1);
            var r := EnemiesPass(es, n);
            && |r| <= |m|
            && (|m| - |r| <= k ==> r[k - (|m| - |r|)] == m[k])
    decreases n
  {
    if n > k + 1 {
      VisitedStayPut(es, k, n - 1);
      var m, r0 := EnemiesPass(es, k + 1), EnemiesPass(es, n - 1);
      SlidStaysUnmoved(m, r0, k, n - 1);
      assert EnemiesPass(es, n) == EnemyStep(r0, n - 1);
    }
  }

  /** One later iteration keeps the enemy m[k] where the queue r0 has it,
      unmoved. */
  lemma SlidStaysUnmoved(m: seq<Enemy>, r0: seq<Enemy>, k: nat, step: nat)
    requires k < |m| && k < step && |r0| <= |m|
    requires |m| - |r0| <= k ==> r0[k - (|m| - |r0|)] == m[k]
    ensures var r := EnemyStep(r0, step);
            && |r| <= |m|
            && (|m| - |r| <= k ==> r[k - (|m| - |r|)] == m[k])
  {
    var r := EnemyStep(r0, step);
    if |m| - |r| <= k {
      var i := k - (|m| - |r0|);
      StepKeepsVisited(r0, i, step);
      if |r| < |r0| {
        assert k - (|m| - |r|) == i - 1;
      }
    }
  }

  /** The enemy that slides into index k when iteration k shifts the queue
      is one the pass has not moved. */
  lemma SlidEnemyUnmoved(es: seq<Enemy>, k: nat)
    requires ShiftsAt(es, k) && k < |EnemiesPass(es, k + 1)|
    ensures var m := EnemiesPass(es, k + 1);
            m[k] == es[k + (|es| - |m|)]
  {
    var prev := EnemiesPass(es, k);
    var m := EnemiesPass(es, k + 1);
    EnemiesPassShape(es, k);
    assert m == prev[k := Advanced(prev[k])][1..];
    assert m[k] == prev[k + 1];
  }

  /** An iteration at index k leaves the enemy at an earlier index i alone:
      it stays at i, or at i - 1 when the queue is shifted. */
  lemma StepKeepsVisited(es: seq<Enemy>, i: nat, k: nat)
    requires i < k
    ensures var r := EnemyStep(es, k);
            && |es| - 1 <= |r| <= |es|
            && (i < |r| == |es| ==> r[i] == es[i])
            && (|r| < |es| && 0 < i < |es| ==> r[i - 1] == es[i])
  {
  }

  /** The spawn half of updateEnemies: the queue after the optional push. */
  function AfterSpawn(es: seq<Enemy>, timestamp: real, lastSpawn: real, frequency: real,
                      c: Canvas, gameSpeed: real, d: EnemyDraw): (r: seq<Enemy>)
    requires Unit(d.ry) && Unit(d.rs)
    ensures |es| <= |r| <= |es| + 1
    ensures |r| == |es| + 1 <==> SpawnDue(timestamp, lastSpawn, frequency, |es|)
    ensures |es| <= MaxEnemies ==> |r| <= MaxEnemies
    ensures r[..|es|] == es
    ensures |r| == |es| + 1 ==> r[|es|] == Spawned(c, gameSpeed, d)
  {
    if SpawnDue(timestamp, lastSpawn, frequency, |es|) then es + [Spawned(c, gameSpeed, d)] else es
  }

  /** The cap is kept by a whole updateEnemies: the push respects it and the
      pass never adds. */
  lemma EnemyCapKept(es: seq<Enemy>, timestamp: real, lastSpawn: real, frequency: real,
                     c: Canvas, gameSpeed: real, d: EnemyDraw)
    requires Unit(d.ry) && Unit(d.rs) && |es| <= MaxEnemies
    ensures var spawned := AfterSpawn(es, timestamp, lastSpawn, frequency, c, gameSpeed, d);
            |EnemiesPass(spawned, |spawned|)| <= MaxEnemies
  {
  }

  /** The skip of the forEach/shift combination, on two enemies: the first
      leaves the screen and is shifted off, the second slides into index 0,
      which was already visited, and is not moved in that frame. */
  lemma ShiftSkipsSlidEnemy()
    ensures var a := Enemy(-45.0, 0.0, 50.0, 50.0, 10.0);
            var b := Enemy(300.0, 0.0, 50.0, 50.0, 3.0);
            EnemiesPass([a, b], 2) == [b]
  {
    var a := Enemy(-45.0, 0.0, 50.0, 50.0, 10.0);
    var b := Enemy(300.0, 0.0, 50.0, 50.0, 3.0);
    assert EnemiesPass([a, b], 1) == [b];
  }
}
