/**
 * The progression rules of the Index page: the cumulative user stats, the
 * completion result a mini-game hands over, and the merge applied when a game
 * completes (src/pages/Index.tsx).
 */
module Progression {
  import opened Lists

  /** What a finished mini-game passes to its onComplete callback. */
  datatype Completion = Completion(points: nat, badges: seq<string>)

  /** The page's UserStats record. Points only ever grow from games, so they are a nat. */
  datatype UserStats = UserStats(points: nat, badges: seq<string>, level: nat, quizzesCompleted: nat)

  /** The stats a fresh page and a logout start from. */
  const DefaultStats: UserStats := UserStats(0, [], 1, 0)

  const PointsPerLevel: nat := 100

  /** Math.floor(points / 100) + 1; for non-negative points Dafny's division is the floor. */
  function LevelFor(points: nat): (level: nat)
    ensures level >= 1
    ensures (level - 1) * PointsPerLevel <= points < level * PointsPerLevel
  {
    points / PointsPerLevel + 1
  }

  /** The invariant of the stats record: the level is derived from the points, no badge is held twice. */
  predicate Consistent(s: UserStats) {
    s.level == LevelFor(s.points) && NoDup(s.badges)
  }

  /**
   * Adds `items` one at a time to an insertion-ordered Set whose contents, in
   * order, are `held`: an item already held is skipped, a new one goes last.
   * The held elements stay first and in their order.
   */
  function SetAddAll(held: seq<string>, items: seq<string>): (r: seq<string>)
    ensures |held| <= |r| && r[..|held|] == held
    ensures NoDup(held) ==> NoDup(r)
    ensures forall x :: x in r <==> x in held || x in items
    decreases |items|
  {
    if items == [] then held
    else SetAddAll(if items[0] in held then held else held + [items[0]], items[1..])
  }

  /**
   * `[...new Set(s)]`: each element of `s` once, at the place of its first
   * occurrence.
   */
  function Dedup(s: seq<string>): (r: seq<string>)
    ensures NoDup(r)
    ensures forall x :: x in r <==> x in s
  {
    SetAddAll([], s)
  }

  /** Spreading `a + b` into a Set is adding `a`, then `b`. */
  lemma {:induction false} SetAddAllConcat(held: seq<string>, a: seq<string>, b: seq<string>)
    ensures SetAddAll(held, a + b) == SetAddAll(SetAddAll(held, a), b)
    decreases |a|
  {
    if a == [] {
      assert a + b == b;
    } else {
      assert (a + b)[0] == a[0] && (a + b)[1..] == a[1..] + b;
      SetAddAllConcat(if a[0] in held then held else held + [a[0]], a[1..], b);
    }
  }

  /** Adding elements none of which is held, nor repeated, appends them all. */
  lemma {:induction false} SetAddAllFresh(held: seq<string>, items: seq<string>)
    requires NoDup(held + items)
    ensures SetAddAll(held, items) == held + items
    decreases |items|
  {
    if items != [] {
      assert items[0] == (held + items)[|held|];
      assert forall i :: 0 <= i < |held| ==> held[i] == (held + items)[i];
      assert items[0] !in held;
      assert held + items == (held + [items[0]]) + items[1..];
      SetAddAllFresh(held + [items[0]], items[1..]);
    }
  }

  /**
   * What the Set adds after the held elements is a subsequence of `items`:
   * the new elements appear in the order in which they first arrive.
   */
  lemma {:induction false} SetAddAllSuffix(held: seq<string>, items: seq<string>)
    ensures Subsequence(SetAddAll(held, items)[|held|..], items)
    decreases |items|
  {
    if items != [] {
      var next := if items[0] in held then held else held + [items[0]];
      SetAddAllSuffix(next, items[1..]);
      var r := SetAddAll(held, items);
      if items[0] in held {
        assert r[|held|..] == SetAddAll(next, items[1..])[|next|..];
      } else {
        assert r[..|next|] == next;
        assert r[|held|..][0] == items[0];
        assert r[|held|..][1..] == r[|next|..];
      }
    }
  }

  /** A duplicate-free sequence goes through a Set unchanged. */
  lemma DedupOfDistinct(s: seq<string>)
    requires NoDup(s)
    ensures Dedup(s) == s
  {
    assert [] + s == s;
    SetAddAllFresh([], s);
  }

  /** Deduplication is idempotent. */
  lemma DedupIdempotent(s: seq<string>)
    ensures Dedup(Dedup(s)) == Dedup(s)
  {
    DedupOfDistinct(Dedup(s));
  }

  /**
   * Deduplicating `a + b` for a duplicate-free `a` is adding `b` to a Set that
   * holds `a`: so `a` comes first, unchanged, and the new elements follow.
   */
  lemma DedupAppend(a: seq<string>, b: seq<string>)
    requires NoDup(a)
    ensures Dedup(a + b) == SetAddAll(a, b)
  {
    SetAddAllConcat([], a, b);
    DedupOfDistinct(a);
  }

  /**
   * The stats update of handleQuizComplete (`countsAsQuiz`) and of
   * handlePictureGameComplete: add the points, merge the badges through a
   * Set, recompute the level; only a quiz bumps quizzesCompleted.
   */
  function Merge(prev: UserStats, points: nat, badges: seq<string>, countsAsQuiz: bool): (r: UserStats)
    ensures r.points == prev.points + points
    ensures r.level == LevelFor(r.points)
    ensures NoDup(r.badges)
    ensures forall x :: x in r.badges <==> x in prev.badges || x in badges
    ensures r.quizzesCompleted == prev.quizzesCompleted + (if countsAsQuiz then 1 else 0)
  {
    UserStats(prev.points + points,
              Dedup(prev.badges + badges),
              LevelFor(prev.points + points),
              if countsAsQuiz then prev.quizzesCompleted + 1 else prev.quizzesCompleted)
  }

  /**
   * The merged badge list is order-preserving: the prior badges come first,
   * unchanged, followed by the earned badges not held before, in the order
   * they were earned.
   */
  lemma MergeBadgeOrder(prev: UserStats, points: nat, badges: seq<string>, countsAsQuiz: bool)
    requires NoDup(prev.badges)
    ensures Merge(prev, points, badges, countsAsQuiz).badges == SetAddAll(prev.badges, badges)
    ensures Merge(prev, points, badges, countsAsQuiz).badges[..|prev.badges|] == prev.badges
    ensures Subsequence(Merge(prev, points, badges, countsAsQuiz).badges[|prev.badges|..], badges)
  {
    DedupAppend(prev.badges, badges);
    SetAddAllSuffix(prev.badges, badges);
  }

  /** Merging keeps the stats invariant, whatever the prior stats and the result. */
  lemma MergeKeepsConsistent(prev: UserStats, points: nat, badges: seq<string>, countsAsQuiz: bool)
    ensures Consistent(Merge(prev, points, badges, countsAsQuiz))
  {
  }

  /** A completion never lowers the level of consistent stats. */
  lemma MergeLevelMonotone(prev: UserStats, points: nat, badges: seq<string>, countsAsQuiz: bool)
    requires Consistent(prev)
    ensures Merge(prev, points, badges, countsAsQuiz).level >= prev.level
    ensures prev.points + points >= prev.level * PointsPerLevel ==> Merge(prev, points, badges, countsAsQuiz).level > prev.level
  {
  }
}
