/** In-game notifications: the `useNotifications` list with its append, remove-by-id,
    clear and preset helpers, and the component's `visible`/`removing` id lists with the
    auto-dismiss timers it schedules. Ids come from the clock and a random source in the
    source; here they are inputs. Timers are explicit steps. */
module NotificationSystem {
  import opened Builtins

  datatype Kind = Success | Error | Warning | Info

  /** A notification; `duration` is in milliseconds and may be absent. */
  datatype Notification = Notification(id: string, kind: Kind, title: string, message: string, duration: Option<int>)

  /** What callers pass to `addNotification`: a notification without its id. */
  datatype Draft = Draft(kind: Kind, title: string, message: string, duration: Option<int>)

  const DefaultDuration := 5000

  /** The stored notification: the draft, the fresh id, and `duration ?? 5000`. */
  function WithDefaults(d: Draft, id: string): (n: Notification)
    ensures n.id == id && n.kind == d.kind && n.title == d.title && n.message == d.message
    ensures d.duration.Some? ==> n.duration == d.duration
    ensures d.duration.None? ==> n.duration == Some(DefaultDuration)
  {
    Notification(id, d.kind, d.title, d.message,
                 if d.duration.Some? then d.duration else Some(DefaultDuration))
  }

  /** An explicit 0 is kept: such a notification is persistent. */
  lemma ExplicitZeroIsPersistent(d: Draft, id: string)
    requires d.duration == Some(0)
    ensures !NeedsTimer(WithDefaults(d, id))
  {
  }

  function KindName(k: Kind): string {
    match k
    case Success => "success"
    case Error => "error"
    case Warning => "warning"
    case Info => "info"
  }

  /** `getNotificationIcon`. */
  function Icon(k: Kind): string {
    match k
    case Success => "✅"
    case Error => "❌"
    case Warning => "⚠️"
    case Info => "ℹ️"
  }

  const BaseClass := "notification-item"

  /** `getNotificationClass`: the base class and the kind's own class. */
  function CssClass(k: Kind): (c: string)
    ensures c == BaseClass + " notification-" + KindName(k)
    ensures |c| > |BaseClass + " notification-"| && c[..|BaseClass|] == BaseClass
  {
    BaseClass + " notification-" + KindName(k)
  }

  /** Each kind has its own icon and its own class. */
  lemma IconAndClassDistinct(a: Kind, b: Kind)
    requires a != b
    ensures Icon(a) != Icon(b)
    ensures CssClass(a) != CssClass(b)
  {
    var p := BaseClass + " notification-";
    assert CssClass(a)[|p|..] == KindName(a);
    assert CssClass(b)[|p|..] == KindName(b);
  }

  /** The filter test of `removeNotification(id)`. */
  function NotOfId(id: string): Notification -> bool {
    (n: Notification) => n.id != id
  }

  /** The list after `removeNotification(id)`. */
  function WithoutId(ns: seq<Notification>, id: string): (r: seq<Notification>)
    ensures forall i :: 0 <= i < |r| ==> r[i].id != id && r[i] in ns
    ensures forall i :: 0 <= i < |ns| && ns[i].id != id ==> ns[i] in r
  {
    Filter(ns, NotOfId(id))
  }

  /** Removing the id just added takes the list back to what it was. */
  lemma RemoveAfterAdd(ns: seq<Notification>, d: Draft, id: string)
    requires forall i :: 0 <= i < |ns| ==> ns[i].id != id
    ensures WithoutId(ns + [WithDefaults(d, id)], id) == ns
  {
    FilterAppend(ns, [WithDefaults(d, id)], NotOfId(id));
    FilterKeepsAll(ns, NotOfId(id));
    assert Filter([WithDefaults(d, id)], NotOfId(id)) == [];
  }

  /** Removing another id keeps a new arrival at the end. */
  lemma RemoveOtherKeepsArrival(ns: seq<Notification>, d: Draft, id: string, other: string)
    requires other != id
    ensures WithoutId(ns + [WithDefaults(d, id)], other) == WithoutId(ns, other) + [WithDefaults(d, id)]
  {
    FilterAppend(ns, [WithDefaults(d, id)], NotOfId(other));
    assert [WithDefaults(d, id)][1..] == [];
  }

  /** Removing an id twice is removing it once. */
  lemma RemoveIdempotent(ns: seq<Notification>, id: string)
    ensures WithoutId(WithoutId(ns, id), id) == WithoutId(ns, id)
  {
    FilterIdempotent(ns, NotOfId(id));
  }

  /** The preset helpers of the hook. The score and token texts are the already
      formatted numbers. */
  datatype Preset =
    | WalletConnected(address: string)
    | WalletDisconnected
    | NetworkError
    | TransactionSubmitted(txHash: string)
    | TransactionConfirmed(txHash: string)
    | ScoreSubmitted(scoreText: string, tokensText: string)
    | GameError(error: string)

  /** The hash shown by the transaction helpers: its first 8 and last 6 characters. */
  function TransactionText(txHash: string): (t: string)
    ensures t == "Transaction: " + txHash[..Min(8, |txHash|)] + "..." + txHash[|txHash| - Min(6, |txHash|)..]
    ensures |txHash| >= 14 ==>
      && |t| == 13 + 17 && t[..13] == "Transaction: "
      && t[13..21] == txHash[..8] && t[21..24] == "..." && t[24..] == txHash[|txHash| - 6..]
  {
    "Transaction: " + Abbreviate(txHash, 8, 6)
  }

  /** The draft each helper adds. */
  function PresetDraft(p: Preset): (d: Draft)
    ensures d.duration.Some? && d.duration.value > 0
    ensures p.WalletConnected? ==>
      d.kind == Success && d.duration == Some(4000) && d.message == "Connected to " + Abbreviate(p.address, 6, 4)
    ensures p.WalletDisconnected? ==> d.kind == Info && d.duration == Some(3000)
    ensures p.NetworkError? ==> d.kind == Error && d.duration == Some(8000)
    ensures p.TransactionSubmitted? ==>
      d.kind == Info && d.duration == Some(6000) && d.message == TransactionText(p.txHash)
    ensures p.TransactionConfirmed? ==>
      d.kind == Success && d.duration == Some(5000) && d.message == TransactionText(p.txHash)
    ensures p.ScoreSubmitted? ==> d.kind == Success && d.duration == Some(6000)
    ensures p.GameError? ==> d.kind == Error && d.duration == Some(6000) && d.message == p.error
  {
    match p
    case WalletConnected(a) =>
      Draft(Success, "🔗 Wallet Connected", "Connected to " + Abbreviate(a, 6, 4), Some(4000))
    case WalletDisconnected =>
      Draft(Info, "🔌 Wallet Disconnected", "Your wallet has been disconnected", Some(3000))
    case NetworkError =>
      Draft(Error, "🌐 Network Error", "Please switch to Somnia Network to play the game", Some(8000))
    case TransactionSubmitted(h) =>
      Draft(Info, "📤 Transaction Submitted", TransactionText(h), Some(6000))
    case TransactionConfirmed(h) =>
      Draft(Success, "✅ Transaction Confirmed", TransactionText(h), Some(5000))
    case ScoreSubmitted(s, t) =>
      Draft(Success, "🎮 Score Submitted!", "Score: " + s + " | Earned: " + t + " RocketFUEL", Some(6000))
    case GameError(e) =>
      Draft(Error, "🎮 Game Error", e, Some(6000))
  }

  /** Every preset names its own duration, so the default never applies, and every preset
      notification dismisses itself. */
  lemma PresetsDismissThemselves(p: Preset, id: string)
    ensures WithDefaults(PresetDraft(p), id).duration == PresetDraft(p).duration
    ensures NeedsTimer(WithDefaults(PresetDraft(p), id))
  {
  }

  /** The hook's notification list. */
  class NotificationQueue {
    var notifications: seq<Notification>

    constructor ()
      ensures notifications == []
    {
      notifications := [];
    }

    /** `addNotification`: one element appended with its defaults; the id is returned. */
    method Add(d: Draft, id: string) returns (r: string)
      modifies this
      ensures notifications == old(notifications) + [WithDefaults(d, id)]
      ensures r == id
    {
      notifications := notifications + [WithDefaults(d, id)];
      r := id;
    }

    /** `notifyWalletConnected`, …, `notifyGameError`. The generic `notifySuccess`,
        `notifyError`, `notifyWarning` and `notifyInfo` are `Add` of a draft of their kind,
        whose omitted duration takes the default. */
    method Notify(p: Preset, id: string) returns (r: string)
      modifies this
      ensures notifications == old(notifications) + [WithDefaults(PresetDraft(p), id)]
      ensures r == id
    {
      r := Add(PresetDraft(p), id);
    }

    /** `removeNotification`: every element with the id goes, the others keep their order. */
    method Remove(id: string)
      modifies this
      ensures notifications == WithoutId(old(notifications), id)
    {
      notifications := WithoutId(notifications, id);
    }

    /** `clearAllNotifications`. */
    method Clear()
      modifies this
      ensures notifications == []
    {
      notifications := [];
    }
  }

  /** `notif.duration && notif.duration > 0`: whether an auto-dismiss timer is set. */
  predicate NeedsTimer(n: Notification) {
    n.duration.Some? && n.duration.value > 0
  }

  /** A scheduled auto-dismiss: the id and the delay in milliseconds. */
  datatype Timer = Timer(id: string, delay: int)

  function IdTest(vis: seq<string>): Notification -> bool {
    (n: Notification) => n.id !in vis
  }

  /** The notifications whose ids are not visible yet, in list order. */
  function NewArrivals(ns: seq<Notification>, vis: seq<string>): (r: seq<Notification>)
    ensures forall i :: 0 <= i < |r| ==> r[i] in ns && r[i].id !in vis
    ensures forall i :: 0 <= i < |ns| && ns[i].id !in vis ==> ns[i] in r
  {
    Filter(ns, IdTest(vis))
  }

  function Ids(ns: seq<Notification>): (r: seq<string>)
    ensures |r| == |ns|
    ensures forall i :: 0 <= i < |ns| ==> r[i] == ns[i].id
  {
    seq(|ns|, i requires 0 <= i < |ns| => ns[i].id)
  }

  /** The timer one arrival schedules, if any. */
  function TimerOf(n: Notification): (ts: seq<Timer>)
    ensures ts == [] <==> !NeedsTimer(n)
    ensures ts != [] ==> ts == [Timer(n.id, n.duration.value)] && ts[0].delay > 0
  {
    if NeedsTimer(n) then [Timer(n.id, n.duration.value)] else []
  }

  /** The timers scheduled for a run of arrivals, in order: one per arrival with a
      positive duration, and only those. */
  function AutoRemovals(ns: seq<Notification>): (ts: seq<Timer>)
    ensures |ts| <= |ns|
    ensures forall k :: 0 <= k < |ts| ==> ts[k].delay > 0
    decreases |ns|
  {
    if ns == [] then [] else TimerOf(ns[0]) + AutoRemovals(ns[1..])
  }

  /** The timers of a run of arrivals are, in order, exactly one per arrival with a
      positive duration, for that arrival's id and after that duration. */
  lemma {:induction false} AutoRemovalsFollowArrivals(ns: seq<Notification>)
    ensures var f := Filter(ns, NeedsTimer);
      && |AutoRemovals(ns)| == |f|
      && forall k :: 0 <= k < |f| ==> AutoRemovals(ns)[k] == Timer(f[k].id, f[k].duration.value)
    decreases |ns|
  {
    if ns != [] {
      AutoRemovalsFollowArrivals(ns[1..]);
      var f, g := Filter(ns, NeedsTimer), Filter(ns[1..], NeedsTimer);
      var h := if NeedsTimer(ns[0]) then [ns[0]] else [];
      assert f == h + g;
      assert AutoRemovals(ns) == TimerOf(ns[0]) + AutoRemovals(ns[1..]);
      forall k | 0 <= k < |f|
        ensures AutoRemovals(ns)[k] == Timer(f[k].id, f[k].duration.value)
      {
        if k >= |h| {
          assert f[k] == g[k - |h|];
        }
      }
    }
  }

  /** A run of arrivals none of which has a positive duration schedules nothing. */
  lemma {:induction false} PersistentArrivalsScheduleNothing(ns: seq<Notification>)
    requires forall i :: 0 <= i < |ns| ==> !NeedsTimer(ns[i])
    ensures AutoRemovals(ns) == []
    decreases |ns|
  {
    if ns != [] {
      assert forall i :: 0 <= i < |ns| - 1 ==> ns[1..][i] == ns[i + 1];
      PersistentArrivalsScheduleNothing(ns[1..]);
    }
  }

  /** Appending one arrival appends its id. */
  lemma IdsSnoc(ns: seq<Notification>, n: Notification)
    ensures Ids(ns + [n]) == Ids(ns) + [n.id]
  {
  }

  /** Appending one arrival appends its timer, if it needs one. */
  lemma {:induction false} AutoRemovalsSnoc(ns: seq<Notification>, n: Notification)
    ensures AutoRemovals(ns + [n]) == AutoRemovals(ns) + TimerOf(n)
    decreases |ns|
  {
    if ns == [] {
      assert [n][1..] == [];
    } else {
      assert (ns + [n])[1..] == ns[1..] + [n];
      AutoRemovalsSnoc(ns[1..], n);
    }
  }

  /** After the arrivals are appended, every listed id is visible. */
  lemma ArrivalsBecomeVisible(ns: seq<Notification>, vis: seq<string>)
    ensures forall i :: 0 <= i < |ns| ==> ns[i].id in vis + Ids(NewArrivals(ns, vis))
  {
    var a := NewArrivals(ns, vis);
    forall i | 0 <= i < |ns|
      ensures ns[i].id in vis + Ids(a)
    {
      if ns[i].id !in vis {
        var j :| 0 <= j < |a| && a[j] == ns[i];
        assert Ids(a)[j] == ns[i].id;
      }
    }
  }

  /** Running the arrival effect again, as React does once `visible` changes, finds no
      new arrivals, so no id is appended or scheduled twice. */
  lemma SecondSyncFindsNothing(ns: seq<Notification>, vis: seq<string>)
    ensures NewArrivals(ns, vis + Ids(NewArrivals(ns, vis))) == []
  {
    ArrivalsBecomeVisible(ns, vis);
    FilterDropsAll(ns, IdTest(vis + Ids(NewArrivals(ns, vis))));
  }

  /** The filter test of the component's id lists. */
  function NotId(id: string): string -> bool {
    x => x != id
  }

  /** Marking an id as removing and then finishing its removal restores the list. */
  lemma RemovingRoundTrip(removing: seq<string>, id: string)
    requires id !in removing
    ensures Filter(removing + [id], NotId(id)) == removing
  {
    FilterAppend(removing, [id], NotId(id));
    FilterKeepsAll(removing, NotId(id));
    assert Filter([id], NotId(id)) == [];
  }

  /** One rendered notification. */
  datatype Item = Item(id: string, cssClass: string, icon: string, title: string, message: string,
                       isVisible: bool, isRemoving: bool)

  /** The component's output: nothing for an empty list, else one item per notification
      in list order. */
  function Render(ns: seq<Notification>, visible: seq<string>, removing: seq<string>): (r: Option<seq<Item>>)
    ensures r.None? <==> ns == []
    ensures r.Some? ==> |r.value| == |ns|
    ensures r.Some? ==> forall i :: 0 <= i < |ns| ==>
      && r.value[i].id == ns[i].id
      && r.value[i].cssClass == CssClass(ns[i].kind)
      && r.value[i].icon == Icon(ns[i].kind)
      && r.value[i].title == ns[i].title
      && r.value[i].message == ns[i].message
      && (r.value[i].isVisible <==> ns[i].id in visible)
      && (r.value[i].isRemoving <==> ns[i].id in removing)
  {
    if |ns| == 0 then None
    else Some(seq(|ns|, i requires 0 <= i < |ns| =>
      Item(ns[i].id, CssClass(ns[i].kind), Icon(ns[i].kind), ns[i].title, ns[i].message,
           ns[i].id in visible, ns[i].id in removing)))
  }

  /** The component's bookkeeping: the visible and removing id lists, and the timers it
      has scheduled. */
  class NotificationView {
    var visible: seq<string>
    var removing: seq<string>
    var timers: seq<Timer>

    constructor ()
      ensures visible == [] && removing == [] && timers == []
    {
      visible, removing, timers := [], [], [];
    }

    /** The arrival effect: the notifications whose ids are not visible yet are taken
        from the list, then shown one by one. */
    method Sync(notifications: seq<Notification>)
      modifies this`visible, this`timers
      ensures visible == old(visible) + Ids(NewArrivals(notifications, old(visible)))
      ensures timers == old(timers) + AutoRemovals(NewArrivals(notifications, old(visible)))
      ensures forall i :: 0 <= i < |notifications| ==> notifications[i].id in visible
    {
      ArrivalsBecomeVisible(notifications, visible);
      ShowAll(NewArrivals(notifications, visible));
    }

    /** The `forEach` over the arrivals: each id is appended, and its auto-dismiss is
        scheduled when its duration is positive. */
    method ShowAll(arrivals: seq<Notification>)
      modifies this`visible, this`timers
      ensures visible == old(visible) + Ids(arrivals)
      ensures timers == old(timers) + AutoRemovals(arrivals)
    {
      var i := 0;
      while i < |arrivals|
        invariant 0 <= i <= |arrivals|
        invariant visible == old(visible) + Ids(arrivals[..i])
        invariant timers == old(timers) + AutoRemovals(arrivals[..i])
      {
        var n := arrivals[i];
        TakeSnoc(arrivals, i);
        IdsSnoc(arrivals[..i], n);
        AutoRemovalsSnoc(arrivals[..i], n);
        Show(n);
        i := i + 1;
      }
      assert arrivals[..i] == arrivals;
    }

    /** One arrival: its id is appended, and its auto-dismiss is scheduled when its
        duration is positive. */
    method Show(n: Notification)
      modifies this`visible, this`timers
      ensures visible == old(visible) + [n.id]
      ensures timers == old(timers) + TimerOf(n)
    {
      visible := visible + [n.id];
      if n.duration.Some? && n.duration.value > 0 {
        timers := timers + [Timer(n.id, n.duration.value)];
      } else {
        assert timers + TimerOf(n) == timers;
      }
    }

    /** `removeNotification` of the component, first half: the id is marked removing. */
    method BeginRemove(id: string)
      modifies this`removing
      ensures removing == old(removing) + [id]
    {
      removing := removing + [id];
    }

    /** Second half, when the 300 ms timer fires: the list drops the id (`onRemove`),
        then so do the removing and visible lists. */
    method FinishRemove(id: string, queue: NotificationQueue)
      modifies this`removing, this`visible, queue
      ensures queue.notifications == WithoutId(old(queue.notifications), id)
      ensures removing == Filter(old(removing), NotId(id))
      ensures visible == Filter(old(visible), NotId(id))
      ensures id !in removing && id !in visible
      ensures forall i :: 0 <= i < |queue.notifications| ==> queue.notifications[i].id != id
    {
      queue.Remove(id);
      removing := Filter(removing, NotId(id));
      visible := Filter(visible, NotId(id));
    }
  }
}
