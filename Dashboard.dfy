/** The lesson dashboard's unlock gating, section-complete test, tab guard and card visibility
    (src/components/LessonDashboard.jsx). `completedLessons` is the quiz session's list, whose entries
    may be `null` (`None`). */
module Dashboard {
  import opened Wrappers

  /** A lesson card: its id, title, number and the lesson whose completion unlocks it. */
  datatype Lesson = Lesson(id: string, title: string, lessonNumber: nat, prerequisite: Option<string>)

  /** `signLanguageLessons`, in display order. */
  const Lessons: seq<Lesson> := [
    Lesson("common", "Common hand signs", 1, None),
    Lesson("advanced", "Advanced hand signs", 2, Some("common")),
    Lesson("sonic", "Sonic hand signs", 3, Some("advanced")),
    Lesson("names", "Names with hand signs", 4, Some("sonic"))
  ]

  /** `completedLessons.includes(id)`. */
  predicate Completed(completed: seq<Option<string>>, id: string) {
    Some(id) in completed
  }

  /** The card's `unlocked` flag. */
  predicate Unlocked(l: Lesson, completed: seq<Option<string>>) {
    match l.prerequisite
    case None => true
    case Some(p) => Completed(completed, p)
  }

  /** Lesson 1 is always open, and each later lesson opens exactly when the one before it in the list
      has been completed. */
  lemma UnlockChain(completed: seq<Option<string>>)
    ensures Unlocked(Lessons[0], completed)
    ensures forall k | 1 <= k < |Lessons| :: Unlocked(Lessons[k], completed) <==> Completed(completed, Lessons[k - 1].id)
    ensures Unlocked(Lessons[1], completed) <==> Some("common") in completed
    ensures Unlocked(Lessons[2], completed) <==> Some("advanced") in completed
    ensures Unlocked(Lessons[3], completed) <==> Some("sonic") in completed
  {
    assert Lessons[1].prerequisite == Some(Lessons[0].id);
    assert Lessons[2].prerequisite == Some(Lessons[1].id);
    assert Lessons[3].prerequisite == Some(Lessons[2].id);
  }

  /** `signLanguageCompleted`: the list length alone decides. */
  predicate SectionComplete(completed: seq<Option<string>>) {
    |completed| >= 4
  }

  /** A list holds at least as many entries as it has distinct members. */
  lemma {:induction false} SetNoLarger<T>(s: seq<T>)
    ensures |set x | x in s| <= |s|
    decreases |s|
  {
    if s != [] {
      var t := s[..|s| - 1];
      SetNoLarger(t);
      assert s == t + [s[|s| - 1]];
      assert (set x | x in s) == (set x | x in t) + {s[|s| - 1]};
    }
  }

  /** Completing all four lessons completes the section. */
  lemma AllLessonsCompleteSection(completed: seq<Option<string>>)
    requires forall k | 0 <= k < |Lessons| :: Completed(completed, Lessons[k].id)
    ensures SectionComplete(completed)
  {
    var four := {Some("common"), Some("advanced"), Some("sonic"), Some("names")};
    assert Completed(completed, Lessons[0].id) && Completed(completed, Lessons[1].id);
    assert Completed(completed, Lessons[2].id) && Completed(completed, Lessons[3].id);
    assert four <= set x | x in completed;
    assert |four| == 4;
    SetNoLarger(completed);
  }

  /** Four `null` entries complete the section although no lesson was completed. */
  lemma NullEntriesCompleteSection()
    ensures SectionComplete([None, None, None, None])
    ensures forall k | 0 <= k < |Lessons| :: !Completed([None, None, None, None], Lessons[k].id)
  {
  }

  /** `handleTabChange`: `lip-reading` is refused until the section is complete; any other tab is taken. */
  function TabAfter(active: string, tab: string, completed: seq<Option<string>>): (r: string)
    ensures tab == "lip-reading" && !SectionComplete(completed) ==> r == active
    ensures tab != "lip-reading" || SectionComplete(completed) ==> r == tab
  {
    if tab == "lip-reading" && !SectionComplete(completed) then active else tab
  }

  /** The card filter, written as its two early returns. */
  predicate Shown(l: Lesson, completed: seq<Option<string>>) {
    var isCompleted := Completed(completed, l.id);
    var isCurrent := Unlocked(l, completed) && !isCompleted;
    var isLocked := !Unlocked(l, completed);
    if !isCurrent && !isLocked then false
    else if isLocked && l.lessonNumber > |completed| + 1 then false
    else true
  }

  /** A card is shown exactly for a current lesson, or for a locked lesson whose number is at most one
      past the list length; an unlocked completed lesson has no card. */
  lemma ShownIff(l: Lesson, completed: seq<Option<string>>)
    ensures Shown(l, completed) <==>
      (Unlocked(l, completed) && !Completed(completed, l.id))
      || (!Unlocked(l, completed) && l.lessonNumber <= |completed| + 1)
    ensures Unlocked(l, completed) && Completed(completed, l.id) ==> !Shown(l, completed)
  {
  }

  /** The visible cards, in list order. */
  function Visible(ls: seq<Lesson>, completed: seq<Option<string>>): seq<Lesson>
    decreases |ls|
  {
    if ls == [] then []
    else Card(ls[0], completed) + Visible(ls[1..], completed)
  }

  /** The visible cards are exactly the shown lessons of the list. */
  lemma {:induction false} VisibleMembers(ls: seq<Lesson>, completed: seq<Option<string>>)
    ensures forall l :: l in Visible(ls, completed) <==> l in ls && Shown(l, completed)
    decreases |ls|
  {
    if ls != [] {
      VisibleMembers(ls[1..], completed);
      assert ls == [ls[0]] + ls[1..];
    }
  }

  /** The progress-list badge: a check mark or the lesson number. */
  datatype Badge = CheckMark | Number(n: nat)

  function BadgeOf(l: Lesson, completed: seq<Option<string>>): (r: Badge)
    ensures r == CheckMark <==> Completed(completed, l.id)
    ensures r.Number? ==> r.n == l.lessonNumber
  {
    if Completed(completed, l.id) then CheckMark else Number(l.lessonNumber)
  }

  /** The completion list after finishing the first `k` lessons in order. */
  function InOrder(k: nat): (r: seq<Option<string>>)
    requires k <= |Lessons|
    ensures |r| == k
    ensures forall i | 0 <= i < k :: r[i] == Some(Lessons[i].id)
  {
    seq(k, i requires 0 <= i < k => Some(Lessons[i].id))
  }

  lemma LessonIdsDistinct()
    ensures forall i, j | 0 <= i < j < |Lessons| :: Lessons[i].id != Lessons[j].id
  {
  }

  /** After finishing the first `k` lessons in order, lesson `j` is completed iff `j < k` and unlocked
      iff `j <= k`. */
  lemma InOrderStatus(k: nat, j: nat)
    requires k <= |Lessons| && j < |Lessons|
    ensures Completed(InOrder(k), Lessons[j].id) <==> j < k
    ensures Unlocked(Lessons[j], InOrder(k)) <==> j <= k
    ensures Lessons[j].lessonNumber == j + 1
  {
    LessonIdsDistinct();
    var c := InOrder(k);
    if j < k {
      assert c[j] == Some(Lessons[j].id);
    }
    if Completed(c, Lessons[j].id) {
      var i :| 0 <= i < |c| && c[i] == Some(Lessons[j].id);
      assert Lessons[i].id == Lessons[j].id;
    }
    UnlockChain(c);
    if 1 <= j {
      if j - 1 < k {
        assert c[j - 1] == Some(Lessons[j - 1].id);
      }
      if Completed(c, Lessons[j - 1].id) {
        var i :| 0 <= i < |c| && c[i] == Some(Lessons[j - 1].id);
        assert Lessons[i].id == Lessons[j - 1].id;
      }
    }
  }

  /** Finishing the lessons in order shows exactly one card, the next lesson (and none once all four
      are done). */
  lemma InOrderShowsNext(k: nat)
    requires k <= |Lessons|
    ensures Visible(Lessons, InOrder(k)) == if k < |Lessons| then [Lessons[k]] else []
  {
    var c := InOrder(k);
    forall j | 0 <= j < |Lessons|
      ensures Shown(Lessons[j], c) <==> j == k
    {
      InOrderStatus(k, j);
    }
    VisibleOfFour(Lessons, c);
    if k == 0 {
      assert Visible(Lessons, c) == [Lessons[0]] + [] + [] + [];
    } else if k == 1 {
      assert Visible(Lessons, c) == [] + [Lessons[1]] + [] + [];
    } else if k == 2 {
      assert Visible(Lessons, c) == [] + [] + [Lessons[2]] + [];
    } else if k == 3 {
      assert Visible(Lessons, c) == [] + [] + [] + [Lessons[3]];
    } else {
      assert Visible(Lessons, c) == [] + [] + [] + [];
    }
  }

  /** The card list one lesson contributes: itself when shown, nothing otherwise. */
  function Card(l: Lesson, completed: seq<Option<string>>): seq<Lesson> {
    if Shown(l, completed) then [l] else []
  }

  /** The filter over a four-card list, unfolded. */
  lemma VisibleOfFour(ls: seq<Lesson>, c: seq<Option<string>>)
    requires |ls| == 4
    ensures Visible(ls, c) == Card(ls[0], c) + Card(ls[1], c) + Card(ls[2], c) + Card(ls[3], c)
  {
    assert ls[1..][0] == ls[1] && ls[1..][1..] == ls[2..];
    assert ls[2..][0] == ls[2] && ls[2..][1..] == ls[3..];
    assert ls[3..][0] == ls[3] && ls[3..][1..] == [];
    assert Visible(ls[3..], c) == Card(ls[3], c);
    assert Visible(ls[2..], c) == Card(ls[2], c) + Card(ls[3], c);
  }

  /** The dashboard's local tab state. */
  class LessonDashboard {
    var activeTab: string

    constructor()
      ensures activeTab == "sign-language"
    {
      activeTab := "sign-language";
    }

    method HandleTabChange(tab: string, completed: seq<Option<string>>)
      modifies this
      ensures activeTab == TabAfter(old(activeTab), tab, completed)
    {
      if tab == "lip-reading" && !SectionComplete(completed) {
        return;
      }
      activeTab := tab;
    }
  }
}
