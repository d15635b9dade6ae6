/** The achievement pop-up: pending ids move from the store into a local queue, and the queue is shown
    one notification at a time (src/components/AchievementNotification.jsx). The two effects, the
    dismiss button and the auto-hide timer are modelled as events. */
module Notifications {
  import opened Wrappers
  import opened Achievements

  /** `newAchievements.map(id => getAchievement(id))`: an unknown id gives `undefined` (`None`). */
  function LookupAll(ids: seq<string>): (r: seq<Option<Achievement>>)
    ensures |r| == |ids|
    decreases |ids|
  {
    if ids == [] then [] else [GetAchievement(ids[0])] + LookupAll(ids[1..])
  }

  /** Entry `i` of the lookup is the achievement found for id `i`. */
  lemma {:induction false} LookupAllAt(ids: seq<string>, i: nat)
    requires i < |ids|
    ensures LookupAll(ids)[i] == GetAchievement(ids[i])
    decreases |ids|
  {
    if i > 0 {
      LookupAllAt(ids[1..], i - 1);
    }
  }

  lemma {:induction false} LookupAllAppend(a: seq<string>, b: seq<string>)
    ensures LookupAll(a + b) == LookupAll(a) + LookupAll(b)
    decreases |a|
  {
    if a == [] {
      assert a + b == b;
    } else {
      assert (a + b)[0] == a[0] && (a + b)[1..] == a[1..] + b;
      LookupAllAppend(a[1..], b);
    }
  }

  /** Ids taken from the definitions all resolve, each to its own definition. */
  lemma LookupAllKnown(ids: seq<string>)
    requires forall i | 0 <= i < |ids| :: ids[i] in AchIds(Definitions)
    ensures forall i | 0 <= i < |ids| :: LookupAll(ids)[i].Some? && LookupAll(ids)[i].value.id == ids[i]
  {
    forall i | 0 <= i < |ids|
      ensures LookupAll(ids)[i].Some? && LookupAll(ids)[i].value.id == ids[i]
    {
      LookupAllAt(ids, i);
    }
  }

  /** The store's pending ids, the component's queue and the notification on screen. */
  datatype Notifier = Notifier(pending: seq<string>, queue: seq<Option<Achievement>>, current: Option<Achievement>)

  const Idle := Notifier([], [], None)

  /** The first effect: while nothing shows, pending ids are appended to the queue in order and the
      store's list is cleared. */
  function Drain(n: Notifier): (r: Notifier)
    ensures |n.pending| > 0 && n.current.None? ==>
      r.queue == n.queue + LookupAll(n.pending) && r.pending == [] && r.current.None?
    ensures !(|n.pending| > 0 && n.current.None?) ==> r == n
  {
    if |n.pending| > 0 && n.current.None? then n.(queue := n.queue + LookupAll(n.pending), pending := [])
    else n
  }

  /** The second effect: while nothing shows, the queue's head goes on screen and leaves the queue. */
  function ShowNext(n: Notifier): (r: Notifier)
    ensures |n.queue| > 0 && n.current.None? ==>
      r.current == n.queue[0] && [n.queue[0]] + r.queue == n.queue && r.pending == n.pending
    ensures !(|n.queue| > 0 && n.current.None?) ==> r == n
  {
    if |n.queue| > 0 && n.current.None? then n.(current := n.queue[0], queue := n.queue[1..])
    else n
  }

  /** `handleDismiss`, and likewise the auto-hide timer: the notification leaves the screen. */
  function Dismiss(n: Notifier): (r: Notifier)
    ensures r.current.None? && r.queue == n.queue && r.pending == n.pending
  {
    n.(current := None)
  }

  /** What happens to the pop-up: the store unlocks ids, an effect runs, or the notification closes. */
  datatype Event = Unlocked(ids: seq<string>) | DrainEffect | ShowEffect | Close

  function Step(n: Notifier, e: Event): Notifier {
    match e
    case Unlocked(ids) => n.(pending := n.pending + ids)
    case DrainEffect => Drain(n)
    case ShowEffect => ShowNext(n)
    case Close => Dismiss(n)
  }

  function Run(n: Notifier, events: seq<Event>): Notifier
    decreases |events|
  {
    if events == [] then n else Run(Step(n, events[0]), events[1..])
  }

  /** The notification one event puts on screen: the queue head, when the second effect fires. */
  function ShownBy(n: Notifier, e: Event): seq<Option<Achievement>> {
    if e == ShowEffect && |n.queue| > 0 && n.current.None? then [n.queue[0]] else []
  }

  /** The ids one event hands to the store. */
  function Gives(e: Event): seq<string> {
    if e.Unlocked? then e.ids else []
  }

  /** The notifications put on screen by a run, in order. */
  function Displayed(n: Notifier, events: seq<Event>): seq<Option<Achievement>>
    decreases |events|
  {
    if events == [] then [] else ShownBy(n, events[0]) + Displayed(Step(n, events[0]), events[1..])
  }

  /** The ids a run's unlocks hand to the store, in order. */
  function Received(events: seq<Event>): seq<string>
    decreases |events|
  {
    if events == [] then [] else Gives(events[0]) + Received(events[1..])
  }

  /** One event loses nothing and reorders nothing: what it shows, then the queue, then the store's
      pending list, is what was queued and pending before followed by what it hands over. */
  predicate KeepsOrder(n: Notifier, e: Event) {
    ShownBy(n, e) + Step(n, e).queue + LookupAll(Step(n, e).pending)
      == n.queue + LookupAll(n.pending) + LookupAll(Gives(e))
  }

  lemma StepKeepsOrder(n: Notifier, e: Event)
    ensures ShownBy(n, e) + Step(n, e).queue + LookupAll(Step(n, e).pending)
         == n.queue + LookupAll(n.pending) + LookupAll(Gives(e))
  {
    match e
    case Unlocked(ids) => UnlockKeepsOrder(n, ids);
    case DrainEffect => DrainKeepsOrder(n);
    case ShowEffect => ShowKeepsOrder(n);
    case Close => CloseKeepsOrder(n);
  }

  lemma UnlockKeepsOrder(n: Notifier, ids: seq<string>)
    ensures KeepsOrder(n, Unlocked(ids))
  {
    LookupAllAppend(n.pending, ids);
  }

  lemma DrainKeepsOrder(n: Notifier)
    ensures KeepsOrder(n, DrainEffect)
  {
    assert LookupAll([]) == [];
  }

  lemma ShowKeepsOrder(n: Notifier)
    ensures KeepsOrder(n, ShowEffect)
  {
    assert LookupAll([]) == [];
    if |n.queue| > 0 && n.current.None? {
      assert n.queue == [n.queue[0]] + n.queue[1..];
    }
  }

  lemma CloseKeepsOrder(n: Notifier)
    ensures KeepsOrder(n, Close)
  {
    assert LookupAll([]) == [];
  }

  /** First in, first out: what was put on screen, then what waits in the queue, then what waits in the
      store is exactly what was there at the start followed by every unlock, in unlock order. */
  lemma {:induction false} FifoOrder(n: Notifier, events: seq<Event>)
    ensures Displayed(n, events) + Run(n, events).queue + LookupAll(Run(n, events).pending)
         == n.queue + LookupAll(n.pending) + LookupAll(Received(events))
    decreases |events|
  {
    if events == [] {
      assert LookupAll([]) == [];
    } else {
      var e, rest := events[0], events[1..];
      var m := Step(n, e);
      var last := Run(m, rest);
      FifoOrder(m, rest);
      StepKeepsOrder(n, e);
      LookupAllAppend(Gives(e), Received(rest));
      assert Received(events) == Gives(e) + Received(rest);
      Chain(ShownBy(n, e), Displayed(m, rest), last.queue, LookupAll(last.pending),
            m.queue, LookupAll(m.pending), n.queue, LookupAll(n.pending),
            LookupAll(Gives(e)), LookupAll(Received(rest)));
    }
  }

  /** One step followed by a run: if the step splits `q + p + g` as `s + q0 + p0` and the run
      splits `q0 + p0 + r` as `d + q1 + p1`, the whole splits `q + p + (g + r)` as `s + d + q1 + p1`. */
  lemma Chain<T>(s: seq<T>, d: seq<T>, q1: seq<T>, p1: seq<T>, q0: seq<T>, p0: seq<T>,
                 q: seq<T>, p: seq<T>, g: seq<T>, r: seq<T>)
    requires d + q1 + p1 == q0 + p0 + r
    requires s + q0 + p0 == q + p + g
    ensures (s + d) + q1 + p1 == q + p + (g + r)
  {
    calc {
      (s + d) + q1 + p1;
      s + (d + q1 + p1);
      s + (q0 + p0 + r);
      (s + q0 + p0) + r;
      (q + p + g) + r;
    }
  }

  /** From an idle pop-up, the notifications appear in the order the store unlocked them. */
  lemma FromIdle(events: seq<Event>)
    ensures Displayed(Idle, events) + Run(Idle, events).queue + LookupAll(Run(Idle, events).pending)
         == LookupAll(Received(events))
  {
    FifoOrder(Idle, events);
    assert LookupAll([]) == [];
  }

  /** The component's state; the pending ids live in the achievement store. */
  class AchievementNotification {
    var currentNotification: Option<Achievement>
    var notificationQueue: seq<Option<Achievement>>

    constructor()
      ensures currentNotification.None? && notificationQueue == []
    {
      currentNotification, notificationQueue := None, [];
    }

    /** The first effect, reading and clearing the store's `newAchievements`. */
    method DrainPending(store: AchievementStore)
      modifies this, store
      ensures var before := Notifier(old(store.newAchievements), old(notificationQueue), old(currentNotification));
        Drain(before) == Notifier(store.newAchievements, notificationQueue, currentNotification)
      ensures |old(store.newAchievements)| > 0 && old(currentNotification).None? ==>
        store.State() == ClearNew(old(store.State()))
      ensures !(|old(store.newAchievements)| > 0 && old(currentNotification).None?) ==>
        store.State() == old(store.State())
    {
      if |store.newAchievements| > 0 && currentNotification.None? {
        notificationQueue := notificationQueue + LookupAll(store.newAchievements);
        store.ClearNewAchievements();
      }
    }

    /** The second effect. */
    method ShowNextNotification(ghost pending: seq<string>)
      modifies this
      ensures ShowNext(Notifier(pending, old(notificationQueue), old(currentNotification)))
           == Notifier(pending, notificationQueue, currentNotification)
    {
      if |notificationQueue| > 0 && currentNotification.None? {
        currentNotification := notificationQueue[0];
        notificationQueue := notificationQueue[1..];
      }
    }

    /** `handleDismiss` and the auto-hide timer. */
    method HandleDismiss()
      modifies this
      ensures currentNotification.None? && notificationQueue == old(notificationQueue)
    {
      currentNotification := None;
    }
  }
}
