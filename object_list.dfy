/**
 * Specification functions over the world's object list: the final
 * compaction of `updateWorld`, the stage-clear test `allEnemiesCleared`, and
 * the effect of the special attack entity by entity. The recursive functions
 * peel the last element so that a loop running from the front extends them one
 * element at a time.
 */
module ObjectList {
  import opened Entities

  // ----- compaction: objects.filter((o) => o.alive) -----

  /** The alive entities of s, in their original order. */
  function AliveOnly(s: seq<Entity>): (r: seq<Entity>)
    ensures |r| <= |s|
    ensures forall e :: e in r ==> e in s && e.alive
    ensures forall e :: e in s && e.alive ==> e in r
  {
    if s == [] then []
    else
      var last := s[|s| - 1];
      assert s == s[..|s| - 1] + [last];
      AliveOnly(s[..|s| - 1]) + (if last.alive then [last] else [])
  }

  /** The positions of the alive entities of s, in increasing order. */
  function AliveIndices(s: seq<Entity>): (r: seq<nat>)
    ensures forall k :: 0 <= k < |r| ==> r[k] < |s| && s[r[k]].alive
    ensures forall j, k :: 0 <= j < k < |r| ==> r[j] < r[k]
    ensures forall i :: 0 <= i < |s| && s[i].alive ==> i in r
  {
    if s == [] then []
    else
      var n := |s| - 1;
      AliveIndices(s[..n]) + (if s[n].alive then [n] else [])
  }

  /**
   * Compaction keeps exactly the alive entities and keeps their order: the
   * k-th survivor is the entity at the k-th alive position, the positions
   * increase, and every alive position is taken. A dead entity has no place
   * in the result.
   */
  lemma {:induction false} AliveOnlyIsAliveSubsequence(s: seq<Entity>)
    ensures |AliveOnly(s)| == |AliveIndices(s)|
    ensures forall k :: 0 <= k < |AliveIndices(s)| ==> AliveOnly(s)[k] == s[AliveIndices(s)[k]]
  {
    if s != [] {
      var n := |s| - 1;
      var prefix := s[..n];
      AliveOnlyIsAliveSubsequence(prefix);
      var a, ix := AliveOnly(prefix), AliveIndices(prefix);
      var extra := if s[n].alive then [s[n]] else [];
      var extraIx := if s[n].alive then [n] else [];
      assert AliveOnly(s) == a + extra;
      assert AliveIndices(s) == ix + extraIx;
      AppendedIndexing(s, a, extra, ix, extraIx);
    }
  }

  /** The step case of AliveOnlyIsAliveSubsequence: extending both lists by matching tails. */
  lemma AppendedIndexing(s: seq<Entity>, a: seq<Entity>, extra: seq<Entity>, ix: seq<nat>, extraIx: seq<nat>)
    requires |a| == |ix| && |extra| == |extraIx|
    requires forall k :: 0 <= k < |ix| ==> ix[k] < |s| && a[k] == s[ix[k]]
    requires forall k :: 0 <= k < |extraIx| ==> extraIx[k] < |s| && extra[k] == s[extraIx[k]]
    ensures forall k :: 0 <= k < |ix + extraIx| ==> (a + extra)[k] == s[(ix + extraIx)[k]]
  {
    forall k | 0 <= k < |ix + extraIx| ensures (a + extra)[k] == s[(ix + extraIx)[k]] {
      if k >= |ix| {
        assert (a + extra)[k] == extra[k - |ix|];
      }
    }
  }

  /** Compacting twice changes nothing more. */
  lemma AliveOnlyIdempotent(s: seq<Entity>)
    ensures AliveOnly(AliveOnly(s)) == AliveOnly(s)
  {
    var r := AliveOnly(s);
    forall k | 0 <= k < |r| ensures r[k].alive {
      assert r[k] in r;
    }
    AliveOnlyOfAllAlive(r);
  }

  /** A list whose entities are all alive is its own compaction. */
  lemma {:induction false} AliveOnlyOfAllAlive(s: seq<Entity>)
    requires forall k :: 0 <= k < |s| ==> s[k].alive
    ensures AliveOnly(s) == s
  {
    if s != [] {
      var n := |s| - 1;
      AliveOnlyOfAllAlive(s[..n]);
      assert s[..n] + [s[n]] == s;
    }
  }

  /** Compaction distributes over appending: the old list's survivors come first. */
  lemma {:induction false} AliveOnlyAppend(s: seq<Entity>, t: seq<Entity>)
    ensures AliveOnly(s + t) == AliveOnly(s) + AliveOnly(t)
    decreases |t|
  {
    if t == [] {
      assert s + t == s;
    } else {
      var n := |t| - 1;
      var last := t[n];
      var tail := if last.alive then [last] else [];
      assert (s + t)[..|s + t| - 1] == s + t[..n];
      assert (s + t)[|s + t| - 1] == last;
      assert AliveOnly(s + t) == AliveOnly(s + t[..n]) + tail;
      AliveOnlyAppend(s, t[..n]);
      assert AliveOnly(t) == AliveOnly(t[..n]) + tail;
      assert AliveOnly(s) + AliveOnly(t[..n]) + tail == AliveOnly(s) + (AliveOnly(t[..n]) + tail);
    }
  }

  // ----- the stage-clear test -----

  /** An ordinary enemy or boss half that is still alive. */
  predicate IsLiveFoe(o: Entity) {
    (o.IsEnemy() || o.IsBoss()) && o.alive
  }

  /** `allEnemiesCleared`: no alive entity of kind ENEMY or BOSS. */
  predicate AllEnemiesCleared(s: seq<Entity>) {
    !exists o :: o in s && IsLiveFoe(o)
  }

  /** The number of live enemies and bosses in s. */
  function LiveFoes(s: seq<Entity>): nat {
    if s == [] then 0 else LiveFoes(s[..|s| - 1]) + (if IsLiveFoe(s[|s| - 1]) then 1 else 0)
  }

  /** The stage is clear exactly when the count of live foes is zero. */
  lemma {:induction false} ClearedIffNoLiveFoes(s: seq<Entity>)
    ensures AllEnemiesCleared(s) <==> LiveFoes(s) == 0
  {
    if s != [] {
      var n := |s| - 1;
      ClearedIffNoLiveFoes(s[..n]);
      assert s == s[..n] + [s[n]];
      assert forall o :: o in s <==> o in s[..n] || o == s[n];
    }
  }

  /** Compaction does not change the stage-clear test. */
  lemma ClearedAfterCompaction(s: seq<Entity>)
    ensures AllEnemiesCleared(AliveOnly(s)) <==> AllEnemiesCleared(s)
  {
  }

  // ----- the special attack, entity by entity -----

  /** First sweep: every enemy bullet, alive or not, is marked dead. */
  function Disarmed(e: Entity): Entity {
    if e.IsEnemyBullet() then e.(alive := false) else e
  }

  /** Second sweep: every alive ordinary enemy is marked dead. */
  function Destroyed(e: Entity): Entity {
    if e.IsEnemy() && e.alive then e.(alive := false) else e
  }

  /** Third sweep: every alive boss loses 10 hp (and dies at 0 or below). */
  function Blasted(e: Entity): Entity {
    if e.IsBoss() && e.alive then Damaged(e, 10) else e
  }

  /** The special attack's effect on one entity of the list. */
  function Swept(e: Entity): Entity {
    Blasted(Destroyed(Disarmed(e)))
  }

  /** The special attack's effect on every entity of the list. */
  function SweepAll(s: seq<Entity>): (r: seq<Entity>)
    ensures |r| == |s|
    ensures forall k :: 0 <= k < |s| ==> r[k] == Swept(s[k])
  {
    if s == [] then [] else SweepAll(s[..|s| - 1]) + [Swept(s[|s| - 1])]
  }

  /** One hit effect at each alive ordinary enemy, in list order. */
  function EnemyBlastHits(s: seq<Entity>): seq<Entity> {
    if s == [] then []
    else
      var e := s[|s| - 1];
      EnemyBlastHits(s[..|s| - 1]) + (if e.IsEnemy() && e.alive then [HitEffectAt(e.x, e.y)] else [])
  }

  /** One hit effect at each alive boss, in list order. */
  function BossBlastHits(s: seq<Entity>): seq<Entity> {
    if s == [] then []
    else
      var e := s[|s| - 1];
      BossBlastHits(s[..|s| - 1]) + (if e.IsBoss() && e.alive then [HitEffectAt(e.x, e.y)] else [])
  }

  /** The number of alive ordinary enemies. */
  function AliveEnemies(s: seq<Entity>): nat {
    if s == [] then 0
    else
      var e := s[|s| - 1];
      AliveEnemies(s[..|s| - 1]) + (if e.IsEnemy() && e.alive then 1 else 0)
  }

  /** The number of alive bosses the blow of 10 kills. */
  function BossesBlownUp(s: seq<Entity>): nat {
    if s == [] then 0
    else
      var e := s[|s| - 1];
      BossesBlownUp(s[..|s| - 1]) + (if e.IsBoss() && e.alive && e.body.hp <= 10 then 1 else 0)
  }

  /** The first sweep changes nothing that the second and third sweeps look at. */
  lemma {:induction false} DisarmKeepsFoes(o: seq<Entity>, d: seq<Entity>)
    requires |d| == |o| && forall k :: 0 <= k < |o| ==> d[k] == Disarmed(o[k])
    ensures EnemyBlastHits(d) == EnemyBlastHits(o) && AliveEnemies(d) == AliveEnemies(o)
    ensures BossBlastHits(d) == BossBlastHits(o) && BossesBlownUp(d) == BossesBlownUp(o)
  {
    if o != [] {
      DisarmKeepsFoes(o[..|o| - 1], d[..|d| - 1]);
    }
  }

  /** The second sweep changes nothing that the third sweep looks at. */
  lemma {:induction false} DestroyKeepsBosses(d: seq<Entity>, t: seq<Entity>)
    requires |t| == |d| && forall k :: 0 <= k < |d| ==> t[k] == Destroyed(d[k])
    ensures BossBlastHits(t) == BossBlastHits(d) && BossesBlownUp(t) == BossesBlownUp(d)
  {
    if d != [] {
      DestroyKeepsBosses(d[..|d| - 1], t[..|t| - 1]);
    }
  }

  /** One hit effect per alive enemy and per alive boss. */
  lemma {:induction false} BlastHitCounts(s: seq<Entity>)
    ensures |EnemyBlastHits(s)| == AliveEnemies(s)
    ensures |BossBlastHits(s)| + AliveEnemies(s) == LiveFoes(s)
    ensures forall h :: h in EnemyBlastHits(s) + BossBlastHits(s) ==> h.body.Hit? && h.alive
  {
    if s != [] {
      BlastHitCounts(s[..|s| - 1]);
    }
  }

  /** The one entity the sweep leaves a live foe: a boss that was alive with more than 10 hp. */
  lemma SweptLiveFoe(e: Entity)
    ensures IsLiveFoe(Swept(e)) <==> e.IsBoss() && e.alive && e.body.hp > 10
    ensures !(Swept(e).alive && (Swept(e).IsEnemyBullet() || Swept(e).IsEnemy()))
    ensures Swept(e).alive ==> e.alive
  {
  }

  /**
   * After the sweep no enemy bullet and no ordinary enemy is alive, no entity
   * came back to life, and the stage is clear exactly when every alive boss had
   * at most 10 hp left.
   */
  lemma SweepOutcome(s: seq<Entity>)
    ensures forall e :: e in SweepAll(s) ==> !(e.alive && (e.IsEnemyBullet() || e.IsEnemy()))
    ensures forall k :: 0 <= k < |s| ==> SweepAll(s)[k].alive ==> s[k].alive
    ensures AllEnemiesCleared(SweepAll(s) + EnemyBlastHits(s) + BossBlastHits(s))
        <==> forall e :: e in s && e.IsBoss() && e.alive ==> e.body.hp <= 10
  {
    var r := SweepAll(s);
    forall k | 0 <= k < |s| ensures r[k] == Swept(s[k]) {
    }
    forall e | e in r ensures !(e.alive && (e.IsEnemyBullet() || e.IsEnemy())) {
      var k :| 0 <= k < |r| && r[k] == e;
      SweptLiveFoe(s[k]);
    }
    forall k | 0 <= k < |s| ensures r[k].alive ==> s[k].alive {
      SweptLiveFoe(s[k]);
    }
    SweepClearIff(s);
  }

  /** The stage-clear half of SweepOutcome. */
  lemma SweepClearIff(s: seq<Entity>)
    ensures AllEnemiesCleared(SweepAll(s) + EnemyBlastHits(s) + BossBlastHits(s))
        <==> forall e :: e in s && e.IsBoss() && e.alive ==> e.body.hp <= 10
  {
    var r := SweepAll(s);
    var hits := EnemyBlastHits(s) + BossBlastHits(s);
    assert r + EnemyBlastHits(s) + BossBlastHits(s) == r + hits;
    BlastHitCounts(s);
    assert forall h :: h in hits ==> !IsLiveFoe(h);
    if forall e :: e in s && e.IsBoss() && e.alive ==> e.body.hp <= 10 {
      forall o | o in r + hits ensures !IsLiveFoe(o) {
        if o in r {
          var k :| 0 <= k < |r| && r[k] == o;
          assert s[k] in s;
          SweptLiveFoe(s[k]);
        }
      }
    } else {
      var e :| e in s && e.IsBoss() && e.alive && e.body.hp > 10;
      var k :| 0 <= k < |s| && s[k] == e;
      SweptLiveFoe(s[k]);
      assert r[k] in r + hits;
    }
  }
}
