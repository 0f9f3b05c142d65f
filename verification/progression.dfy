/**
 * The progression rules of script.js on values: the star flags of the ten
 * levels, the star and ticket counters, the unlock frontier, what
 * `finishLevel` does to them, and which level cards `generateLevelGrid`
 * shows as locked.
 */
module Progression {
  import opened Questions

  /** Number of set flags (1s) among the level flags. */
  function Count(flags: seq<int>): (n: nat)
    ensures n <= |flags|
  {
    if |flags| == 0 then 0 else (if flags[0] == 1 then 1 else 0) + Count(flags[1..])
  }

  /** Setting one unset flag raises the count by exactly one. */
  lemma {:induction false} CountSetFlag(flags: seq<int>, k: nat)
    requires k < |flags| && flags[k] != 1
    ensures Count(flags[k := 1]) == Count(flags) + 1
  {
    if k > 0 {
      CountSetFlag(flags[1..], k - 1);
      assert flags[k := 1][1..] == flags[1..][k - 1 := 1];
    } else {
      assert flags[k := 1][1..] == flags[1..];
    }
  }

  /** The count reaches the number of flags exactly when every flag is set. */
  lemma {:induction false} CountAllSet(flags: seq<int>)
    ensures Count(flags) == |flags| <==> forall k | 0 <= k < |flags| :: flags[k] == 1
  {
    if |flags| > 0 {
      CountAllSet(flags[1..]);
      if Count(flags) == |flags| {
        forall k | 0 <= k < |flags| ensures flags[k] == 1 {
          if k > 0 {
            assert flags[k] == flags[1..][k - 1];
          }
        }
      }
      if forall k | 0 <= k < |flags| :: flags[k] == 1 {
        assert forall k | 0 <= k < |flags| - 1 :: flags[1..][k] == flags[k + 1];
      }
    }
  }

  /** With no flag set the count is zero. */
  lemma {:induction false} CountNoneSet(flags: seq<int>)
    requires forall k | 0 <= k < |flags| :: flags[k] == 0
    ensures Count(flags) == 0
  {
    if |flags| > 0 {
      assert forall k | 0 <= k < |flags| - 1 :: flags[1..][k] == flags[k + 1];
      CountNoneSet(flags[1..]);
    }
  }

  /**
   * The progress part of `gameState`: the unlock frontier `currentLevel`,
   * the counters `totalStars` and `tickets`, and `levelStars`, one flag per
   * level (0 = not completed, 1 = completed).
   */
  datatype Progress = Progress(currentLevel: int, totalStars: int, tickets: int, levelStars: seq<int>)

  /** The progress of a fresh session. */
  const Initial: Progress := Progress(1, 0, 0, seq(LevelCount, _ => 0))

  /**
   * What every reachable progress satisfies: ten 0/1 flags, `totalStars`
   * their count, one ticket exactly once all ten are set, and the frontier
   * a level.
   */
  predicate Consistent(p: Progress) {
    && |p.levelStars| == LevelCount
    && (forall k | 0 <= k < LevelCount :: p.levelStars[k] == 0 || p.levelStars[k] == 1)
    && p.totalStars == Count(p.levelStars)
    && p.tickets == (if p.totalStars == LevelCount then 1 else 0)
    && 1 <= p.currentLevel <= LevelCount
  }

  /** A fresh session starts consistent: no stars, no ticket, level 1. */
  lemma InitialConsistent()
    ensures Consistent(Initial) && Initial.totalStars == 0 && Initial.tickets == 0
  {
    CountNoneSet(Initial.levelStars);
  }

  /** The flag of `level` is set (`levelStars[i-1] === 1`). */
  predicate IsCompleted(levelStars: seq<int>, level: int)
    requires 1 <= level <= |levelStars|
  {
    levelStars[level - 1] == 1
  }

  /** A level card is locked when it lies past the frontier and is not completed. */
  predicate IsLocked(levelStars: seq<int>, currentLevel: int, level: int)
    requires 1 <= level <= |levelStars|
  {
    level > currentLevel && !IsCompleted(levelStars, level)
  }

  /** The look of a level card: star, target, padlock or plain. */
  datatype CardKind = Completed | Current | Locked | Open

  /**
   * The card `generateLevelGrid` draws for a level; the first test that
   * holds decides. Only a locked card ignores clicks.
   */
  function CardFor(levelStars: seq<int>, currentLevel: int, level: int): (c: CardKind)
    requires 1 <= level <= |levelStars|
    ensures c == Locked <==> IsLocked(levelStars, currentLevel, level)
    ensures c == Completed <==> IsCompleted(levelStars, level)
    ensures c == Current <==> level == currentLevel && !IsCompleted(levelStars, level)
  {
    if IsCompleted(levelStars, level) then Completed
    else if level == currentLevel then Current
    else if IsLocked(levelStars, currentLevel, level) then Locked
    else Open
  }

  /** `startLevel` on progress: the chosen level becomes the frontier, whatever it was. */
  function Start(p: Progress, level: int): (r: Progress)
    requires Consistent(p) && 1 <= level <= LevelCount
    ensures Consistent(r)
  {
    p.(currentLevel := level)
  }

  /**
   * `finishLevel` on progress: a first completion of the current level sets
   * its flag and adds a star, and a ticket when that star is the tenth; then
   * the frontier moves on unless it is the last level.
   */
  function Finish(p: Progress): (r: Progress)
    requires Consistent(p)
  {
    var i := p.currentLevel - 1;
    var awarded :=
      if p.levelStars[i] == 0 then
        var totalStars := p.totalStars + 1;
        var tickets := if totalStars == LevelCount then p.tickets + 1 else p.tickets;
        p.(levelStars := p.levelStars[i := 1], totalStars := totalStars, tickets := tickets)
      else p;
    if awarded.currentLevel < LevelCount then awarded.(currentLevel := awarded.currentLevel + 1) else awarded
  }

  /** Finishing a level keeps progress consistent: stars stay counted, tickets stay at most one. */
  lemma FinishKeepsConsistent(p: Progress)
    requires Consistent(p)
    ensures Consistent(Finish(p))
  {
    var i := p.currentLevel - 1;
    if p.levelStars[i] == 0 {
      CountSetFlag(p.levelStars, i);
      CountAllSet(p.levelStars);
    }
  }

  /**
   * After finishing, the finished level is starred and no other flag has
   * changed; a first completion adds one star, a replay adds none.
   */
  lemma FinishStarsLevel(p: Progress)
    requires Consistent(p)
    ensures var r := Finish(p);
      && r.levelStars == p.levelStars[p.currentLevel - 1 := 1]
      && r.totalStars == Count(r.levelStars)
      && r.totalStars == p.totalStars + (if IsCompleted(p.levelStars, p.currentLevel) then 0 else 1)
  {
    var i := p.currentLevel - 1;
    if p.levelStars[i] == 0 {
      CountSetFlag(p.levelStars, i);
    } else {
      assert p.levelStars[i := 1] == p.levelStars;
    }
  }

  /**
   * A ticket is granted by a finish exactly when it completes the last
   * level without a star; replaying a starred level never grants one.
   */
  lemma FinishGrantsTicket(p: Progress)
    requires Consistent(p)
    ensures var r := Finish(p);
      && (r.tickets == p.tickets || r.tickets == p.tickets + 1)
      && (r.tickets == p.tickets + 1 <==> !IsCompleted(p.levelStars, p.currentLevel) && p.totalStars == LevelCount - 1)
      && (IsCompleted(p.levelStars, p.currentLevel) ==> r.levelStars == p.levelStars && r.totalStars == p.totalStars && r.tickets == p.tickets)
  {
    var i := p.currentLevel - 1;
    if p.levelStars[i] == 0 {
      CountAllSet(p.levelStars);
    }
  }

  /** After finishing, the frontier has moved one level on, or stays at the last level. */
  lemma FinishAdvancesFrontier(p: Progress)
    requires Consistent(p)
    ensures var r := Finish(p);
      && r.currentLevel == (if p.currentLevel < LevelCount then p.currentLevel + 1 else LevelCount)
      && 1 <= r.currentLevel <= LevelCount
      && (p.currentLevel < LevelCount ==> !IsLocked(r.levelStars, r.currentLevel, p.currentLevel + 1))
  {
  }

  /**
   * On a fresh session, finishing the level one chose stars that level and
   * nothing else, gives one star and no ticket, and unlocks the level after it.
   */
  lemma FirstCompletion(level: int)
    requires 1 <= level <= LevelCount
    ensures Consistent(Initial)
    ensures var r := Finish(Start(Initial, level));
      && r.levelStars == Initial.levelStars[level - 1 := 1]
      && r.totalStars == 1 && r.tickets == 0
      && r.currentLevel == if level < LevelCount then level + 1 else LevelCount
  {
    InitialConsistent();
    var p := Start(Initial, level);
    FinishStarsLevel(p);
    FinishGrantsTicket(p);
  }

  /**
   * In every consistent progress at most one ticket has been granted, and
   * one has exactly when all ten levels are starred.
   */
  lemma TicketAtMostOnce(p: Progress)
    requires Consistent(p)
    ensures 0 <= p.tickets <= 1 && p.totalStars <= LevelCount
    ensures p.tickets == 1 <==> forall level | 1 <= level <= LevelCount :: IsCompleted(p.levelStars, level)
  {
    CountAllSet(p.levelStars);
    if forall level | 1 <= level <= LevelCount :: IsCompleted(p.levelStars, level) {
      assert forall k | 0 <= k < LevelCount :: p.levelStars[k] == 1 by {
        forall k | 0 <= k < LevelCount ensures p.levelStars[k] == 1 {
          assert IsCompleted(p.levelStars, k + 1);
        }
      }
    }
  }

  /**
   * A starred level is never locked, and neither is any level up to the
   * frontier; in particular the level being played can always be restarted.
   */
  lemma UnlockedLevels(p: Progress, level: int)
    requires Consistent(p) && 1 <= level <= LevelCount
    requires IsCompleted(p.levelStars, level) || level <= p.currentLevel
    ensures !IsLocked(p.levelStars, p.currentLevel, level)
    ensures CardFor(p.levelStars, p.currentLevel, level) != Locked
  {
  }

  /**
   * Starting an earlier level moves the frontier back to it: every later
   * level that has no star is locked again, until finishing an open level
   * just before it moves the frontier up to it. Starred levels stay open.
   */
  lemma StartRelocks(p: Progress, level: int, later: int)
    requires Consistent(p) && 1 <= level < later <= LevelCount
    ensures IsLocked(Start(p, level).levelStars, Start(p, level).currentLevel, later) <==> !IsCompleted(p.levelStars, later)
    ensures CardFor(Start(p, level).levelStars, Start(p, level).currentLevel, level) != Locked
  {
  }

  /**
   * From a session without a ticket, a finish yields the ticket exactly
   * when afterwards every level carries its star.
   */
  lemma TicketMeansAllStarred(p: Progress)
    requires Consistent(p) && p.tickets == 0
    ensures Finish(p).tickets == 1 <==> forall level | 1 <= level <= LevelCount :: IsCompleted(Finish(p).levelStars, level)
  {
    FinishKeepsConsistent(p);
    TicketAtMostOnce(Finish(p));
  }

  /** `getLevelDescription`: the label on the level's card. */
  function LevelDescription(level: int): (d: string)
    ensures level <= 3 ==> d == "บวก-ลบ"
    ensures 3 < level <= 6 ==> d == "คูณ-หาร"
    ensures 6 < level ==> d == "โจทย์ประยุกต์"
  {
    if level <= 3 then "บวก-ลบ"
    else if level <= 6 then "คูณ-หาร"
    else "โจทย์ประยุกต์"
  }

  /**
   * Two levels share a description exactly when they lie in the same band:
   * 1-3 (addition and subtraction), 4-6 (multiplication and division), 7-10
   * (word problems).
   */
  lemma DescriptionBands(a: int, b: int)
    ensures LevelDescription(a) == LevelDescription(b) <==> (a <= 3 <==> b <= 3) && (a <= 6 <==> b <= 6)
  {
    var add, mul, word := "บวก-ลบ", "คูณ-หาร", "โจทย์ประยุกต์";
    assert add != mul by { assert add[0] != mul[0]; }
    assert add != word by { assert add[0] != word[0]; }
    assert mul != word by { assert mul[0] != word[0]; }
  }
}
