/** The achievement rule engine and XP ledger of the achievement store
    (src/store/achievementStore.js). Days are integer day numbers supplied by the caller. */
module Achievements {
  import opened Wrappers

  /** The counters kept in `achievementProgress`, one per achievement `type`. */
  datatype CounterType = LessonsCompleted | CorrectAnswers | DailyStreak | AllLessonsCompleted

  /** An achievement definition; icon, description and colour are presentation only. */
  datatype Achievement = Achievement(id: string, title: string, xpReward: nat, kind: CounterType, target: int)

  /** The seven definitions, in declaration order. */
  const Definitions: seq<Achievement> := [
    Achievement("scholar", "Zero Zone Scholar", 50, LessonsCompleted, 1),
    Achievement("magician", "Zero Zone Magician", 30, CorrectAnswers, 1),
    Achievement("scientist", "Zero Zone Scientist", 75, DailyStreak, 2),
    Achievement("guru", "Zero Zone Guru", 200, LessonsCompleted, 10),
    Achievement("master_scholar", "Zero Zone Scholar", 150, CorrectAnswers, 10),
    Achievement("celebrity", "Zero Zone Celebrity", 500, DailyStreak, 30),
    Achievement("champion", "Zero Zone Champion", 1000, AllLessonsCompleted, 1)
  ]

  function AchIds(a: seq<Achievement>): (r: seq<string>)
    ensures |r| == |a| && forall i | 0 <= i < |a| :: r[i] == a[i].id
  {
    if a == [] then [] else AchIds(a[..|a| - 1]) + [a[|a| - 1].id]
  }

  lemma AchIdsCons(a: seq<Achievement>)
    requires a != []
    ensures AchIds(a) == [a[0].id] + AchIds(a[1..])
  {
  }

  /** The definitions' ids, in order. */
  const DefinitionIds: seq<string> := ["scholar", "magician", "scientist", "guru", "master_scholar", "celebrity", "champion"]

  lemma DefinitionIdsListed()
    ensures AchIds(Definitions) == DefinitionIds
  {
  }

  /** No two definitions share an id, checked position by position. */
  lemma DefinitionIdsApart()
    ensures forall i, j | 0 <= i < j < |Definitions| :: Definitions[i].id != Definitions[j].id
  {
  }

  /** Achievement ids are unique, so `getAchievement` and the unlock list identify definitions. */
  lemma DefinitionIdsUnique()
    ensures NoDuplicates(AchIds(Definitions))
  {
    DefinitionIdsApart();
    var ids := AchIds(Definitions);
    forall i, j | 0 <= i < j < |ids| ensures ids[i] != ids[j] {
      assert ids[i] == Definitions[i].id && ids[j] == Definitions[j].id;
    }
  }

  // ---------------------------------------------------------------- XP ledger

  /** `totalXP`, `weeklyXP`, `level` and `lastXPDate` (a day number, `None` for null). */
  datatype Ledger = Ledger(totalXP: int, weeklyXP: int, level: int, lastXPDate: Option<int>)

  const FreshLedger := Ledger(0, 0, 1, None)

  /** `Math.floor(total / 100) + 1`: the level is the number of whole hundreds reached, plus one. */
  function Level(total: int): (r: int)
    ensures (r - 1) * 100 <= total < r * 100
  {
    total / 100 + 1
  }

  /** Whole days since the last XP; a missing date counts as today. */
  function DaysSince(last: Option<int>, today: int): int {
    match last
    case None => 0
    case Some(day) => today - day
  }

  /** `addXP(amount)` on day `today`. */
  function AddXP(l: Ledger, amount: int, today: int): (r: Ledger)
    ensures r.totalXP == l.totalXP + amount
    ensures r.level == Level(r.totalXP)
    ensures r.lastXPDate == Some(today)
    ensures l.lastXPDate.Some? && today - l.lastXPDate.value >= 7 ==> r.weeklyXP == amount
    ensures (l.lastXPDate.None? || today - l.lastXPDate.value < 7) ==> r.weeklyXP == l.weeklyXP + amount
  {
    var isNewWeek := DaysSince(l.lastXPDate, today) >= 7;
    Ledger(l.totalXP + amount, if isNewWeek then amount else l.weeklyXP + amount, Level(l.totalXP + amount), Some(today))
  }

  /** One `addXP` call in a history of calls. */
  datatype Grant = Grant(amount: int, day: int)

  /** The ledger after the calls of `h`, in order. */
  function Replay(l: Ledger, h: seq<Grant>): Ledger {
    if h == [] then l else AddXP(Replay(l, h[..|h| - 1]), h[|h| - 1].amount, h[|h| - 1].day)
  }

  function Total(h: seq<Grant>): int {
    if h == [] then 0 else Total(h[..|h| - 1]) + h[|h| - 1].amount
  }

  /** Where the current week began: the last call made 7 or more days after the call before it. */
  function WindowStart(h: seq<Grant>): (r: nat)
    ensures r <= |h|
  {
    if |h| <= 1 then 0
    else if h[|h| - 1].day - h[|h| - 2].day >= 7 then |h| - 1
    else WindowStart(h[..|h| - 1])
  }

  /** From a fresh ledger: the total is the sum of all grants, the level follows the total, and
      the weekly XP is the sum of the grants since the last gap of at least 7 days. */
  lemma {:induction false} ReplayFromFresh(h: seq<Grant>)
    ensures Replay(FreshLedger, h).totalXP == Total(h)
    ensures Replay(FreshLedger, h).level == Level(Total(h))
    ensures Replay(FreshLedger, h).weeklyXP == Total(h[WindowStart(h)..])
    ensures h != [] ==> Replay(FreshLedger, h).lastXPDate == Some(h[|h| - 1].day)
  {
    if h != [] {
      var init := h[..|h| - 1];
      ReplayFromFresh(init);
      if |h| == 1 {
        assert init == [];
        assert h[WindowStart(h)..] == h;
        assert h[..0] == [];
      } else {
        assert init[|init| - 1] == h[|h| - 2];
        if h[|h| - 1].day - h[|h| - 2].day >= 7 {
          assert h[|h| - 1..] == [h[|h| - 1]];
          assert h[|h| - 1..][..0] == [];
        } else {
          var k := WindowStart(init);
          assert h[k..][..|h[k..]| - 1] == init[k..];
        }
      }
    }
  }

  // ---------------------------------------------------------------- rule engine

  /** The store's persistent fields apart from the constant definitions. */
  datatype AchState = AchState(
    ledger: Ledger,
    unlocked: seq<string>,
    progress: map<CounterType, int>,
    newAchievements: seq<string>)

  const Fresh := AchState(FreshLedger, [], map[], [])

  /** `achievementProgress[type] || 0`. */
  function Progress(s: AchState, kind: CounterType): int {
    if kind in s.progress then s.progress[kind] else 0
  }

  predicate Unlocks(d: Achievement, unlocked: seq<string>, kind: CounterType, value: int) {
    d.kind == kind && d.id !in unlocked && value >= d.target
  }

  /** The definitions of `defs` that `checkAchievements(kind, value)` unlocks, in order. */
  function Unlockable(defs: seq<Achievement>, unlocked: seq<string>, kind: CounterType, value: int): (r: seq<Achievement>)
    ensures |r| <= |defs|
  {
    if defs == [] then []
    else
      var last := defs[|defs| - 1];
      Unlockable(defs[..|defs| - 1], unlocked, kind, value) + (if Unlocks(last, unlocked, kind, value) then [last] else [])
  }

  /** A definition is unlocked by a check iff it is among those looked at and meets the rule. */
  lemma {:induction false} UnlockableMembers(defs: seq<Achievement>, unlocked: seq<string>, kind: CounterType, value: int)
    ensures forall d :: d in Unlockable(defs, unlocked, kind, value) <==> d in defs && Unlocks(d, unlocked, kind, value)
  {
    if defs != [] {
      var init := defs[..|defs| - 1];
      UnlockableMembers(init, unlocked, kind, value);
      assert defs == init + [defs[|defs| - 1]];
    }
  }

  /** Looking at one more definition appends it when it unlocks. */
  lemma UnlockableStep(defs: seq<Achievement>, i: nat, unlocked: seq<string>, kind: CounterType, value: int)
    requires i < |defs|
    ensures Unlockable(defs[..i + 1], unlocked, kind, value)
         == Unlockable(defs[..i], unlocked, kind, value) + (if Unlocks(defs[i], unlocked, kind, value) then [defs[i]] else [])
  {
    assert defs[..i + 1][..i] == defs[..i];
  }

  /** One more unlock appends its id and pays its reward on top of the others. */
  lemma GrowStep(l: Ledger, a: seq<Achievement>, d: Achievement, today: int)
    ensures AchIds(a + [d]) == AchIds(a) + [d.id]
    ensures GrantAll(l, a + [d], today) == AddXP(GrantAll(l, a, today), d.xpReward, today)
  {
    assert (a + [d])[..|a|] == a;
  }

  /** One `addXP(reward)` per newly unlocked definition, in order. */
  function GrantAll(l: Ledger, a: seq<Achievement>, today: int): (r: Ledger)
    ensures r.totalXP == l.totalXP + RewardSum(a)
    ensures a == [] ==> r == l
    ensures a != [] ==> r.level == Level(r.totalXP)
  {
    if a == [] then l else AddXP(GrantAll(l, a[..|a| - 1], today), a[|a| - 1].xpReward, today)
  }

  function RewardSum(a: seq<Achievement>): int {
    if a == [] then 0 else RewardSum(a[..|a| - 1]) + a[|a| - 1].xpReward
  }

  /** `checkAchievements(kind, value)`. */
  function Check(s: AchState, kind: CounterType, value: int, today: int): AchState {
    var newly := Unlockable(Definitions, s.unlocked, kind, value);
    if newly == [] then s
    else s.(ledger := GrantAll(s.ledger, newly, today),
            unlocked := s.unlocked + AchIds(newly),
            newAchievements := s.newAchievements + AchIds(newly))
  }

  /** The invariant every transition keeps: the level follows the total, every unlocked id names a
      definition and occurs once, and the ids still to be announced are the latest unlocks. */
  predicate Valid(s: AchState) {
    && s.ledger.level == Level(s.ledger.totalXP)
    && NoDuplicates(s.unlocked)
    && (forall id | id in s.unlocked :: id in DefinitionIds)
    && |s.newAchievements| <= |s.unlocked|
    && s.newAchievements == s.unlocked[|s.unlocked| - |s.newAchievements|..]
  }

  lemma FreshValid()
    ensures Valid(Fresh)
  {
  }

  /** An id occurs in the unlock list after a check iff it was there before or it names a
      definition of that counter type whose target the value reaches. */
  lemma CheckUnlocksExactly(s: AchState, kind: CounterType, value: int, today: int, id: string)
    ensures id in Check(s, kind, value, today).unlocked <==>
            id in s.unlocked || exists d | d in Definitions :: d.id == id && d.kind == kind && value >= d.target
  {
    var newly := Unlockable(Definitions, s.unlocked, kind, value);
    UnlockableMembers(Definitions, s.unlocked, kind, value);
    var ids := AchIds(newly);
    assert id in ids <==> exists d | d in newly :: d.id == id by {
      if id in ids {
        var i :| 0 <= i < |ids| && ids[i] == id;
        assert newly[i] in newly;
      }
      forall d | d in newly && d.id == id ensures id in ids {
        var i :| 0 <= i < |newly| && newly[i] == d;
        assert ids[i] == id;
      }
    }
  }

  /** A check only appends to the unlock list, and appends the same ids to the announcement list. */
  lemma CheckOnlyGrows(s: AchState, kind: CounterType, value: int, today: int)
    ensures var r := Check(s, kind, value, today);
      && r.unlocked[..|s.unlocked|] == s.unlocked
      && |s.unlocked| <= |r.unlocked|
      && r.newAchievements == s.newAchievements + r.unlocked[|s.unlocked|..]
      && r.progress == s.progress
  {
    var r := Check(s, kind, value, today);
    if r != s {
      assert r.unlocked[|s.unlocked|..] == AchIds(Unlockable(Definitions, s.unlocked, kind, value));
    }
  }

  /** The reward of the definition with id `id`, 0 for an unknown id. */
  function RewardOf(id: string): nat {
    match GetAchievement(id)
    case Some(d) => d.xpReward
    case None => 0
  }

  function RewardOfIds(ids: seq<string>): int {
    if ids == [] then 0 else RewardOfIds(ids[..|ids| - 1]) + RewardOf(ids[|ids| - 1])
  }

  lemma {:induction false} RewardSumOfIds(a: seq<Achievement>)
    requires forall d | d in a :: d in Definitions
    ensures RewardSum(a) == RewardOfIds(AchIds(a))
  {
    if a != [] {
      var init := a[..|a| - 1];
      RewardSumOfIds(init);
      assert AchIds(a)[..|a| - 1] == AchIds(init);
      GetAchievementOfDefinition(a[|a| - 1]);
    }
  }

  /** Each newly unlocked definition pays its reward exactly once: the total grows by the rewards
      of the ids the check appended. */
  lemma CheckPaysOnce(s: AchState, kind: CounterType, value: int, today: int)
    ensures var r := Check(s, kind, value, today);
      r.ledger.totalXP == s.ledger.totalXP + RewardOfIds(r.unlocked[|s.unlocked|..])
  {
    var r := Check(s, kind, value, today);
    var newly := Unlockable(Definitions, s.unlocked, kind, value);
    if newly != [] {
      assert r.unlocked[|s.unlocked|..] == AchIds(newly);
      UnlockableMembers(Definitions, s.unlocked, kind, value);
      RewardSumOfIds(newly);
    } else {
      assert r.unlocked[|s.unlocked|..] == [];
    }
  }

  /** Checking again with the same counter and value unlocks and pays nothing. */
  lemma CheckIdempotent(s: AchState, kind: CounterType, value: int, today: int)
    ensures Check(Check(s, kind, value, today), kind, value, today) == Check(s, kind, value, today)
  {
    var r := Check(s, kind, value, today);
    var again := Unlockable(Definitions, r.unlocked, kind, value);
    if again != [] {
      var d := again[0];
      assert d in again;
      UnlockableMembers(Definitions, r.unlocked, kind, value);
      CheckUnlocksExactly(s, kind, value, today, d.id);
      assert false;
    }
  }

  /** `b` keeps the elements of `a` in order, possibly with others between them. */
  predicate IsSubsequence<T(==)>(a: seq<T>, b: seq<T>) {
    if a == [] then true
    else if b == [] then false
    else if a[|a| - 1] == b[|b| - 1] then IsSubsequence(a[..|a| - 1], b[..|b| - 1])
    else IsSubsequence(a, b[..|b| - 1])
  }

  /** Unlocks follow definition order. */
  lemma {:induction false} UnlockableInOrder(defs: seq<Achievement>, unlocked: seq<string>, kind: CounterType, value: int)
    ensures IsSubsequence(AchIds(Unlockable(defs, unlocked, kind, value)), AchIds(defs))
  {
    if defs != [] {
      var init := defs[..|defs| - 1];
      var last := defs[|defs| - 1];
      UnlockableInOrder(init, unlocked, kind, value);
      var u := Unlockable(init, unlocked, kind, value);
      assert AchIds(defs)[..|defs| - 1] == AchIds(init);
      if Unlocks(last, unlocked, kind, value) {
        assert Unlockable(defs, unlocked, kind, value) == u + [last];
        assert AchIds(u + [last])[..|u|] == AchIds(u);
      } else {
        assert Unlockable(defs, unlocked, kind, value) == u;
        SubsequenceOfLonger(AchIds(u), AchIds(init), last.id);
      }
    }
  }

  lemma {:induction false} SubsequenceOfLonger<T>(a: seq<T>, b: seq<T>, x: T)
    requires IsSubsequence(a, b)
    ensures IsSubsequence(a, b + [x])
    decreases |b|, 1
  {
    if a != [] && a[|a| - 1] == x {
      assert (b + [x])[..|b|] == b;
      SubsequenceDropLast(a, b);
    } else {
      assert (b + [x])[..|b|] == b;
    }
  }

  lemma {:induction false} SubsequenceDropLast<T>(a: seq<T>, b: seq<T>)
    requires a != [] && IsSubsequence(a, b)
    ensures IsSubsequence(a[..|a| - 1], b)
    decreases |b|, 0
  {
    if a[|a| - 1] == b[|b| - 1] {
      SubsequenceOfLonger(a[..|a| - 1], b[..|b| - 1], b[|b| - 1]);
      assert b[..|b| - 1] + [b[|b| - 1]] == b;
    } else {
      SubsequenceDropLast(a, b[..|b| - 1]);
      SubsequenceOfLonger(a[..|a| - 1], b[..|b| - 1], b[|b| - 1]);
      assert b[..|b| - 1] + [b[|b| - 1]] == b;
    }
  }

  lemma {:induction false} UnlockableIdsFresh(defs: seq<Achievement>, unlocked: seq<string>, kind: CounterType, value: int)
    requires NoDuplicates(AchIds(defs))
    ensures NoDuplicates(AchIds(Unlockable(defs, unlocked, kind, value)))
    ensures forall id | id in AchIds(Unlockable(defs, unlocked, kind, value)) :: id !in unlocked && id in AchIds(defs)
  {
    if defs != [] {
      var init := defs[..|defs| - 1];
      var last := defs[|defs| - 1];
      assert AchIds(defs) == AchIds(init) + [last.id];
      assert NoDuplicates(AchIds(init)) by {
        forall i, j | 0 <= i < j < |init| ensures AchIds(init)[i] != AchIds(init)[j] {
          assert AchIds(defs)[i] == AchIds(init)[i] && AchIds(defs)[j] == AchIds(init)[j];
        }
      }
      UnlockableIdsFresh(init, unlocked, kind, value);
      var u := Unlockable(init, unlocked, kind, value);
      if Unlocks(last, unlocked, kind, value) {
        assert AchIds(u + [last]) == AchIds(u) + [last.id];
        assert last.id !in AchIds(init) by {
          forall i | 0 <= i < |init| ensures AchIds(init)[i] != last.id {
            assert AchIds(defs)[i] == AchIds(init)[i] && AchIds(defs)[|init|] == last.id;
          }
        }
        AppendFreshKeepsNoDuplicates(AchIds(u), last.id);
      }
    }
  }

  /** A check keeps the invariant. */
  lemma CheckKeepsValid(s: AchState, kind: CounterType, value: int, today: int)
    requires Valid(s)
    ensures Valid(Check(s, kind, value, today))
  {
    var r := Check(s, kind, value, today);
    var newly := Unlockable(Definitions, s.unlocked, kind, value);
    if newly != [] {
      var ids := AchIds(newly);
      DefinitionIdsUnique();
      DefinitionIdsListed();
      UnlockableIdsFresh(Definitions, s.unlocked, kind, value);
      NoDuplicatesAppend(s.unlocked, ids);
      var k := |s.unlocked| - |s.newAchievements|;
      assert r.unlocked[|r.unlocked| - |r.newAchievements|..] == s.unlocked[k..] + ids;
    }
  }

  lemma NoDuplicatesAppend<T>(a: seq<T>, b: seq<T>)
    requires NoDuplicates(a) && NoDuplicates(b) && forall x | x in b :: x !in a
    ensures NoDuplicates(a + b)
  {
    forall i, j | 0 <= i < j < |a + b| ensures (a + b)[i] != (a + b)[j] {
      if j < |a| {
        assert (a + b)[i] == a[i] && (a + b)[j] == a[j];
      } else if i >= |a| {
        assert (a + b)[i] == b[i - |a|] && (a + b)[j] == b[j - |a|];
      } else {
        assert (a + b)[i] == a[i] && (a + b)[j] == b[j - |a|];
        assert b[j - |a|] in b;
      }
    }
  }

  /** `updateAchievementProgress(kind, v)`: bump one counter, then check that counter's definitions. */
  function Bump(s: AchState, kind: CounterType, v: int, today: int): (r: AchState)
    ensures Progress(r, kind) == Progress(s, kind) + v
    ensures forall k | k != kind :: Progress(r, k) == Progress(s, k)
    ensures r.ledger.totalXP >= s.ledger.totalXP
  {
    var newProgress := Progress(s, kind) + v;
    var s1 := s.(progress := s.progress[kind := newProgress]);
    CheckOnlyGrows(s1, kind, newProgress, today);
    CheckGainsXP(s1, kind, newProgress, today);
    Check(s1, kind, newProgress, today)
  }

  /** `addXP` on the state's ledger. */
  function Earn(s: AchState, amount: int, today: int): (r: AchState)
    ensures r.unlocked == s.unlocked && r.progress == s.progress && r.newAchievements == s.newAchievements
    ensures r.ledger.totalXP == s.ledger.totalXP + amount
  {
    s.(ledger := AddXP(s.ledger, amount, today))
  }

  /** `checkSpecialAchievements`: the all-lessons counter moves once four lessons are complete. */
  function CheckSpecial(s: AchState, completedCount: nat, today: int): (r: AchState)
    ensures completedCount < 4 ==> r == s
    ensures Progress(r, AllLessonsCompleted) == Progress(s, AllLessonsCompleted) + (if completedCount >= 4 then 1 else 0)
    ensures forall k | k != AllLessonsCompleted :: Progress(r, k) == Progress(s, k)
  {
    if completedCount >= 4 then Bump(s, AllLessonsCompleted, 1, today) else s
  }

  /** `onLessonCompleted`, given the length of the lesson store's completed list. */
  function LessonCompleted(s: AchState, completedCount: nat, today: int): (r: AchState)
    ensures Progress(r, LessonsCompleted) == Progress(s, LessonsCompleted) + 1
    ensures Progress(r, AllLessonsCompleted) == Progress(s, AllLessonsCompleted) + (if completedCount >= 4 then 1 else 0)
    ensures Progress(r, CorrectAnswers) == Progress(s, CorrectAnswers)
    ensures Progress(r, DailyStreak) == Progress(s, DailyStreak)
    ensures r.ledger.totalXP >= s.ledger.totalXP + 25
  {
    var s1 := Bump(s, LessonsCompleted, 1, today);
    var s2 := Earn(s1, 25, today);
    if completedCount >= 4 then
      CheckSpecial(s2, completedCount, today)
    else s2
  }

  /** `onCorrectAnswer`. */
  function CorrectAnswer(s: AchState, today: int): (r: AchState)
    ensures Progress(r, CorrectAnswers) == Progress(s, CorrectAnswers) + 1
    ensures forall k | k != CorrectAnswers :: Progress(r, k) == Progress(s, k)
    ensures r.ledger.totalXP >= s.ledger.totalXP + 10
  {
    Earn(Bump(s, CorrectAnswers, 1, today), 10, today)
  }

  /** `onDailyStreakUpdate(k)`: the streak counter grows by `k` (a sum, not a maximum), and a
      streak longer than one day pays `5 * k`. */
  function DailyStreakUpdate(s: AchState, k: int, today: int): (r: AchState)
    ensures Progress(r, DailyStreak) == Progress(s, DailyStreak) + k
    ensures forall c | c != DailyStreak :: Progress(r, c) == Progress(s, c)
    ensures r.ledger.totalXP >= s.ledger.totalXP + (if k > 1 then 5 * k else 0)
  {
    var s1 := Bump(s, DailyStreak, k, today);
    if k > 1 then Earn(s1, k * 5, today) else s1
  }

  /** Bumping a counter keeps the invariant: the check it runs does. */
  lemma BumpKeepsValid(s: AchState, kind: CounterType, v: int, today: int)
    requires Valid(s)
    ensures Valid(Bump(s, kind, v, today))
  {
    var newProgress := Progress(s, kind) + v;
    var s1 := s.(progress := s.progress[kind := newProgress]);
    ValidIgnoresProgress(s, s1);
    CheckKeepsValid(s1, kind, newProgress, today);
  }

  /** The invariant does not look at the counters. */
  lemma ValidIgnoresProgress(s: AchState, t: AchState)
    requires Valid(s) && t.ledger == s.ledger && t.unlocked == s.unlocked && t.newAchievements == s.newAchievements
    ensures Valid(t)
  {
  }

  /** `addXP` keeps the invariant: the level is recomputed from the new total. */
  lemma EarnKeepsValid(s: AchState, amount: int, today: int)
    requires Valid(s)
    ensures Valid(Earn(s, amount, today))
  {
  }

  /** Every handler of the store keeps the invariant. */
  lemma HandlersKeepValid(s: AchState, completedCount: nat, k: int, today: int)
    requires Valid(s)
    ensures Valid(LessonCompleted(s, completedCount, today))
    ensures Valid(CorrectAnswer(s, today))
    ensures Valid(DailyStreakUpdate(s, k, today))
    ensures Valid(CheckSpecial(s, completedCount, today))
    ensures Valid(ClearNew(s))
  {
    LessonCompletedKeepsValid(s, completedCount, today);
    BumpKeepsValid(s, CorrectAnswers, 1, today);
    EarnKeepsValid(Bump(s, CorrectAnswers, 1, today), 10, today);
    BumpKeepsValid(s, DailyStreak, k, today);
    EarnKeepsValid(Bump(s, DailyStreak, k, today), k * 5, today);
    BumpKeepsValid(s, AllLessonsCompleted, 1, today);
  }

  lemma LessonCompletedKeepsValid(s: AchState, completedCount: nat, today: int)
    requires Valid(s)
    ensures Valid(LessonCompleted(s, completedCount, today))
  {
    var s1 := Bump(s, LessonsCompleted, 1, today);
    BumpKeepsValid(s, LessonsCompleted, 1, today);
    EarnKeepsValid(s1, 25, today);
    BumpKeepsValid(Earn(s1, 25, today), AllLessonsCompleted, 1, today);
  }

  lemma CheckGainsXP(s: AchState, kind: CounterType, value: int, today: int)
    ensures Check(s, kind, value, today).ledger.totalXP >= s.ledger.totalXP
  {
    var newly := Unlockable(Definitions, s.unlocked, kind, value);
    RewardSumNonNegative(newly);
  }

  /** `id` names a definition of counter `kind` whose target `value` reaches. */
  predicate Reaches(id: string, kind: CounterType, value: int) {
    exists d | d in Definitions :: d.id == id && d.kind == kind && value >= d.target
  }

  /** A bump only appends to the unlock list, pays exactly the rewards of what it appends, and
      unlocks an id iff it was unlocked or the bumped counter reaches its target. */
  lemma BumpEffects(s: AchState, kind: CounterType, v: int, today: int, id: string)
    ensures var r := Bump(s, kind, v, today);
      && |s.unlocked| <= |r.unlocked| && r.unlocked[..|s.unlocked|] == s.unlocked
      && r.ledger.totalXP == s.ledger.totalXP + RewardOfIds(r.unlocked[|s.unlocked|..])
      && (id in r.unlocked <==> id in s.unlocked || Reaches(id, kind, Progress(s, kind) + v))
  {
    var newProgress := Progress(s, kind) + v;
    var s1 := s.(progress := s.progress[kind := newProgress]);
    assert Bump(s, kind, v, today) == Check(s1, kind, newProgress, today);
    CheckOnlyGrows(s1, kind, newProgress, today);
    CheckPaysOnce(s1, kind, newProgress, today);
    CheckUnlocksExactly(s1, kind, newProgress, today, id);
  }

  lemma {:induction false} RewardOfIdsAppend(a: seq<string>, b: seq<string>)
    ensures RewardOfIds(a + b) == RewardOfIds(a) + RewardOfIds(b)
    decreases |b|
  {
    if b == [] {
      assert a + b == a;
    } else {
      assert (a + b)[..|a + b| - 1] == a + b[..|b| - 1];
      RewardOfIdsAppend(a, b[..|b| - 1]);
    }
  }

  /** Two bumps in a row: the appended ids are those of the first followed by those of the second,
      and their rewards add up. */
  lemma AppendedTwice(u0: seq<string>, u1: seq<string>, u2: seq<string>)
    requires |u0| <= |u1| && u1[..|u0|] == u0 && |u1| <= |u2| && u2[..|u1|] == u1
    ensures |u0| <= |u2| && u2[..|u0|] == u0
    ensures RewardOfIds(u2[|u0|..]) == RewardOfIds(u1[|u0|..]) + RewardOfIds(u2[|u1|..])
  {
    assert u2[..|u0|] == u2[..|u1|][..|u0|];
    assert u2[|u0|..] == u1[|u0|..] + u2[|u1|..];
    RewardOfIdsAppend(u1[|u0|..], u2[|u1|..]);
  }

  /** `onCorrectAnswer` pays exactly 10 plus the rewards of what it unlocks, and unlocks exactly the
      correct-answer achievements the raised counter reaches. */
  lemma CorrectAnswerEffects(s: AchState, today: int, id: string)
    ensures var r := CorrectAnswer(s, today);
      && |s.unlocked| <= |r.unlocked| && r.unlocked[..|s.unlocked|] == s.unlocked
      && r.ledger.totalXP == s.ledger.totalXP + 10 + RewardOfIds(r.unlocked[|s.unlocked|..])
      && (id in r.unlocked <==> id in s.unlocked || Reaches(id, CorrectAnswers, Progress(s, CorrectAnswers) + 1))
  {
    BumpEffects(s, CorrectAnswers, 1, today, id);
  }

  /** `onDailyStreakUpdate(k)` pays exactly `5 * k` when `k > 1`, nothing otherwise, plus the rewards
      of what it unlocks, and unlocks exactly the streak achievements the raised counter reaches. */
  lemma DailyStreakEffects(s: AchState, k: int, today: int, id: string)
    ensures var r := DailyStreakUpdate(s, k, today);
      && |s.unlocked| <= |r.unlocked| && r.unlocked[..|s.unlocked|] == s.unlocked
      && r.ledger.totalXP == s.ledger.totalXP + (if k > 1 then 5 * k else 0) + RewardOfIds(r.unlocked[|s.unlocked|..])
      && (id in r.unlocked <==> id in s.unlocked || Reaches(id, DailyStreak, Progress(s, DailyStreak) + k))
  {
    BumpEffects(s, DailyStreak, k, today, id);
  }

  /** `checkSpecialAchievements` with four or more lessons complete pays exactly the rewards of what
      it unlocks, and unlocks exactly the all-lessons achievements the raised counter reaches. */
  lemma CheckSpecialEffects(s: AchState, completedCount: nat, today: int, id: string)
    ensures var r := CheckSpecial(s, completedCount, today);
      && |s.unlocked| <= |r.unlocked| && r.unlocked[..|s.unlocked|] == s.unlocked
      && r.ledger.totalXP == s.ledger.totalXP + RewardOfIds(r.unlocked[|s.unlocked|..])
      && (id in r.unlocked <==>
            (id in s.unlocked || (completedCount >= 4 && Reaches(id, AllLessonsCompleted, Progress(s, AllLessonsCompleted) + 1))))
  {
    if completedCount >= 4 {
      BumpEffects(s, AllLessonsCompleted, 1, today, id);
    } else {
      assert s.unlocked[|s.unlocked|..] == [];
    }
  }

  /** `onLessonCompleted` pays exactly 25 plus the rewards of what it unlocks; it unlocks exactly the
      lesson achievements the raised lesson counter reaches and, once four lessons are complete, the
      all-lessons achievements the raised all-lessons counter reaches. */
  lemma LessonCompletedEffects(s: AchState, completedCount: nat, today: int, id: string)
    ensures var r := LessonCompleted(s, completedCount, today);
      && |s.unlocked| <= |r.unlocked| && r.unlocked[..|s.unlocked|] == s.unlocked
      && r.ledger.totalXP == s.ledger.totalXP + 25 + RewardOfIds(r.unlocked[|s.unlocked|..])
      && (id in r.unlocked <==>
            (|| id in s.unlocked
             || Reaches(id, LessonsCompleted, Progress(s, LessonsCompleted) + 1)
             || (completedCount >= 4 && Reaches(id, AllLessonsCompleted, Progress(s, AllLessonsCompleted) + 1))))
  {
    var s1 := Bump(s, LessonsCompleted, 1, today);
    var s2 := Earn(s1, 25, today);
    BumpEffects(s, LessonsCompleted, 1, today, id);
    CheckSpecialEffects(s2, completedCount, today, id);
    AppendedTwice(s.unlocked, s2.unlocked, CheckSpecial(s2, completedCount, today).unlocked);
  }

  lemma {:induction false} RewardSumNonNegative(a: seq<Achievement>)
    ensures RewardSum(a) >= 0
  {
    if a != [] {
      RewardSumNonNegative(a[..|a| - 1]);
    }
  }

  /** Successive daily-streak updates add up rather than keep the longest streak. */
  lemma {:induction false} DailyStreakSums(s: AchState, ks: seq<int>, today: int)
    ensures Progress(DailyStreakAll(s, ks, today), DailyStreak) == Progress(s, DailyStreak) + Sum(ks)
  {
    if ks != [] {
      DailyStreakSums(s, ks[..|ks| - 1], today);
    }
  }

  function DailyStreakAll(s: AchState, ks: seq<int>, today: int): AchState {
    if ks == [] then s else DailyStreakUpdate(DailyStreakAll(s, ks[..|ks| - 1], today), ks[|ks| - 1], today)
  }

  function Sum(ks: seq<int>): int {
    if ks == [] then 0 else Sum(ks[..|ks| - 1]) + ks[|ks| - 1]
  }

  // ---------------------------------------------------------------- getters

  /** `getAchievement(id)`: the first definition with that id. */
  function GetAchievement(id: string): (r: Option<Achievement>)
    ensures r.Some? ==> r.value in Definitions && r.value.id == id
    ensures r.None? <==> id !in AchIds(Definitions)
  {
    FindById(Definitions, id)
  }

  function FindById(defs: seq<Achievement>, id: string): (r: Option<Achievement>)
    ensures r.Some? ==> r.value in defs && r.value.id == id
    ensures r.None? <==> id !in AchIds(defs)
  {
    if defs == [] then None
    else if defs[0].id == id then Some(defs[0])
    else
      var r := FindById(defs[1..], id);
      AchIdsCons(defs);
      r
  }

  lemma GetAchievementOfDefinition(d: Achievement)
    requires d in Definitions
    ensures GetAchievement(d.id) == Some(d)
  {
    DefinitionIdsUnique();
    var i :| 0 <= i < |Definitions| && Definitions[i] == d;
    assert AchIds(Definitions)[i] == d.id;
    var r := GetAchievement(d.id);
    var j :| 0 <= j < |Definitions| && Definitions[j] == r.value;
    assert AchIds(Definitions)[j] == d.id;
  }

  /** The definitions whose id is (`wanted`) or is not (`!wanted`) in the unlock list. */
  function SelectByUnlocked(defs: seq<Achievement>, unlocked: seq<string>, wanted: bool): (r: seq<Achievement>)
    ensures forall d :: d in r <==> d in defs && (d.id in unlocked) == wanted
  {
    if defs == [] then []
    else
      var last := defs[|defs| - 1];
      SelectByUnlocked(defs[..|defs| - 1], unlocked, wanted) + (if (last.id in unlocked) == wanted then [last] else [])
  }

  /** `getUnlockedAchievements`. */
  function UnlockedAchievements(s: AchState): seq<Achievement> {
    SelectByUnlocked(Definitions, s.unlocked, true)
  }

  /** `getAvailableAchievements`. */
  function AvailableAchievements(s: AchState): seq<Achievement> {
    SelectByUnlocked(Definitions, s.unlocked, false)
  }

  /** The two getters split the definitions: each lands in exactly one of them. */
  lemma {:induction false} SelectPartitions(defs: seq<Achievement>, unlocked: seq<string>)
    ensures |SelectByUnlocked(defs, unlocked, true)| + |SelectByUnlocked(defs, unlocked, false)| == |defs|
    ensures forall d | d in defs :: (d in SelectByUnlocked(defs, unlocked, true)) != (d in SelectByUnlocked(defs, unlocked, false))
  {
    if defs != [] {
      SelectPartitions(defs[..|defs| - 1], unlocked);
    }
  }

  lemma GettersPartition(s: AchState)
    ensures |UnlockedAchievements(s)| + |AvailableAchievements(s)| == |Definitions|
    ensures forall d | d in Definitions :: (d in UnlockedAchievements(s)) != (d in AvailableAchievements(s))
  {
    SelectPartitions(Definitions, s.unlocked);
  }

  /** `clearNewAchievements`. */
  function ClearNew(s: AchState): (r: AchState)
    ensures r.newAchievements == [] && r.ledger == s.ledger && r.unlocked == s.unlocked && r.progress == s.progress
  {
    s.(newAchievements := [])
  }

  // ---------------------------------------------------------------- the store

  /** The achievement store. Methods take today's day number where the source reads the clock. */
  class AchievementStore {
    var totalXP: int
    var weeklyXP: int
    var level: int
    var lastXPDate: Option<int>
    var unlockedAchievements: seq<string>
    var achievementProgress: map<CounterType, int>
    var newAchievements: seq<string>

    function State(): AchState
      reads this
    {
      AchState(Ledger(totalXP, weeklyXP, level, lastXPDate), unlockedAchievements, achievementProgress, newAchievements)
    }

    constructor()
      ensures State() == Fresh
    {
      totalXP, weeklyXP, level, lastXPDate := 0, 0, 1, None;
      unlockedAchievements, achievementProgress, newAchievements := [], map[], [];
    }

    method AddXP(amount: int, today: int)
      modifies this
      ensures State() == Earn(old(State()), amount, today)
    {
      var isNewWeek := DaysSince(lastXPDate, today) >= 7;
      var newTotalXP := totalXP + amount;
      weeklyXP := if isNewWeek then amount else weeklyXP + amount;
      totalXP := newTotalXP;
      level := newTotalXP / 100 + 1;
      lastXPDate := Some(today);
    }

    method UpdateAchievementProgress(kind: CounterType, value: int, today: int)
      modifies this
      ensures State() == Bump(old(State()), kind, value, today)
    {
      var currentProgress := if kind in achievementProgress then achievementProgress[kind] else 0;
      var newProgress := currentProgress + value;
      achievementProgress := achievementProgress[kind := newProgress];
      CheckAchievements(kind, newProgress, today);
    }

    /** The `forEach` over the definitions, granting each unlock's reward as it goes. */
    method CheckAchievements(kind: CounterType, currentValue: int, today: int)
      modifies this
      ensures State() == Check(old(State()), kind, currentValue, today)
    {
      ghost var s0 := State();
      var unlocked0 := unlockedAchievements;
      var newlyUnlocked: seq<string> := [];
      ghost var newly: seq<Achievement> := [];
      var i := 0;
      while i < |Definitions|
        invariant 0 <= i <= |Definitions|
        invariant newly == Unlockable(Definitions[..i], unlocked0, kind, currentValue)
        invariant newlyUnlocked == AchIds(newly)
        invariant State() == s0.(ledger := GrantAll(s0.ledger, newly, today))
      {
        UnlockableStep(Definitions, i, unlocked0, kind, currentValue);
        GrowStep(s0.ledger, newly, Definitions[i], today);
        newlyUnlocked := Consider(Definitions[i], unlocked0, kind, currentValue, today, newlyUnlocked);
        if Unlocks(Definitions[i], unlocked0, kind, currentValue) {
          newly := newly + [Definitions[i]];
        }
        i := i + 1;
      }
      assert Definitions[..i] == Definitions;
      if |newlyUnlocked| > 0 {
        unlockedAchievements := unlocked0 + newlyUnlocked;
        newAchievements := newAchievements + newlyUnlocked;
      }
    }

    /** One definition: the `filter` test (this type, not yet unlocked) and the `forEach` callback's
        test (the value reaches the target) together; a passing definition is recorded and pays its
        reward through `addXP`. */
    method Consider(achievement: Achievement, unlocked: seq<string>, kind: CounterType, currentValue: int,
                    today: int, newlyUnlocked: seq<string>) returns (r: seq<string>)
      modifies this
      ensures Unlocks(achievement, unlocked, kind, currentValue) ==>
        r == newlyUnlocked + [achievement.id] && State() == Earn(old(State()), achievement.xpReward, today)
      ensures !Unlocks(achievement, unlocked, kind, currentValue) ==> r == newlyUnlocked && State() == old(State())
    {
      r := newlyUnlocked;
      if achievement.kind == kind && achievement.id !in unlocked && currentValue >= achievement.target {
        r := r + [achievement.id];
        AddXP(achievement.xpReward, today);
      }
    }

    method CheckSpecialAchievements(completedCount: nat, today: int)
      modifies this
      ensures State() == CheckSpecial(old(State()), completedCount, today)
    {
      if completedCount >= 4 {
        UpdateAchievementProgress(AllLessonsCompleted, 1, today);
      }
    }

    method OnLessonCompleted(completedCount: nat, today: int)
      modifies this
      ensures State() == LessonCompleted(old(State()), completedCount, today)
    {
      UpdateAchievementProgress(LessonsCompleted, 1, today);
      AddXP(25, today);
      CheckSpecialAchievements(completedCount, today);
    }

    method OnCorrectAnswer(today: int)
      modifies this
      ensures State() == CorrectAnswer(old(State()), today)
    {
      UpdateAchievementProgress(CorrectAnswers, 1, today);
      AddXP(10, today);
    }

    method OnDailyStreakUpdate(streakCount: int, today: int)
      modifies this
      ensures State() == DailyStreakUpdate(old(State()), streakCount, today)
    {
      UpdateAchievementProgress(DailyStreak, streakCount, today);
      if streakCount > 1 {
        AddXP(streakCount * 5, today);
      }
    }

    method ClearNewAchievements()
      modifies this
      ensures State() == ClearNew(old(State()))
    {
      newAchievements := [];
    }

    method Reset()
      modifies this
      ensures State() == Fresh
    {
      totalXP, weeklyXP, level, lastXPDate := 0, 0, 1, None;
      unlockedAchievements, achievementProgress, newAchievements := [], map[], [];
    }
  }
}
