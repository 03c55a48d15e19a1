/**
 * Experience points, levels, badges and the daily streak (backend/gamification_utils.py).
 */
module GamificationRules {
  import opened Wrappers
  import Clock

  const Novice := "Novice"
  const Expert := "Expert"

  /** The level and badge list that `award_xp` stores for a total of `xp` points. */
  datatype Standing = Standing(level: int, badges: seq<string>)

  /**
   * Level is `xp // 100 + 1`: the level-th band of one hundred points holds `xp`. Novice is
   * earned at 100 points and Expert at 500, listed in that order, and no other badge exists.
   */
  function LevelAndBadges(xp: int): (r: Standing)
    ensures (r.level - 1) * 100 <= xp < r.level * 100
    ensures Novice in r.badges <==> xp >= 100
    ensures Expert in r.badges <==> xp >= 500
    ensures r.badges == [] || r.badges == [Novice] || r.badges == [Novice, Expert]
  {
    var badges := (if xp >= 100 then [Novice] else []) + (if xp >= 500 then [Expert] else []);
    Standing(xp / 100 + 1, badges)
  }

  /** Levels start at one and never go down as points grow. */
  lemma LevelMonotone(xp: int, xp': int)
    requires xp <= xp'
    ensures 0 <= xp ==> LevelAndBadges(xp).level >= 1
    ensures LevelAndBadges(xp).level <= LevelAndBadges(xp').level
    ensures |LevelAndBadges(xp).badges| <= |LevelAndBadges(xp').badges|
  {
  }

  /** The Expert badge is only ever held together with, and after, Novice. */
  lemma ExpertImpliesNovice(xp: int)
    ensures Expert in LevelAndBadges(xp).badges ==> LevelAndBadges(xp).badges == [Novice, Expert]
  {
  }

  /** The unit tests' vectors: 0, 150 and 520 points. */
  lemma LevelAndBadgesVectors()
    ensures LevelAndBadges(0) == Standing(1, [])
    ensures LevelAndBadges(150) == Standing(2, [Novice])
    ensures LevelAndBadges(520) == Standing(6, [Novice, Expert])
  {
  }

  /**
   * The streak after an entry made at `now`, given the timestamp of the last entry (if any) and
   * the streak before it: unchanged on the same calendar day, one longer the day after, and
   * restarted at 1 after any other gap, a date in the future, or no previous entry.
   */
  function Streak(lastEntry: Option<int>, previous: int, now: int): (r: int)
    ensures lastEntry.None? ==> r == 1
    ensures lastEntry.Some? && Clock.Day(lastEntry.value) == Clock.Day(now) ==> r == previous
    ensures lastEntry.Some? && Clock.Day(now) - Clock.Day(lastEntry.value) == 1 ==> r == previous + 1
    ensures (lastEntry.Some? && Clock.Day(now) - Clock.Day(lastEntry.value) != 0 &&
             Clock.Day(now) - Clock.Day(lastEntry.value) != 1) ==> r == 1
    ensures r != 1 && r != previous ==>
              lastEntry.Some? && r == previous + 1 && Clock.Day(now) - Clock.Day(lastEntry.value) == 1
    ensures previous >= 0 ==> r <= previous + 1
  {
    match lastEntry
    case None => 1
    case Some(last) =>
      if Clock.Day(last) == Clock.Day(now) then previous
      else if Clock.Day(now) - Clock.Day(last) == 1 then previous + 1
      else 1
  }

  /** The unit tests' vectors, with `now` at noon of day 20000. */
  lemma StreakVectors()
    ensures Streak(None, 0, 20000 * 86400 + 43200) == 1
    ensures Streak(Some(20000 * 86400 + 43200), 3, 20000 * 86400 + 43200) == 3
    ensures Streak(Some(19999 * 86400 + 43200), 2, 20000 * 86400 + 43200) == 3
    ensures Streak(Some(19995 * 86400 + 43200), 10, 20000 * 86400 + 43200) == 1
  {
  }
}
