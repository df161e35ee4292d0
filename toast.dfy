/** The toast queue: `add` appends a notification and, when it has a positive
    duration, schedules its removal; `remove` drops every toast with an id.
    The random id is a parameter, and a scheduled removal is a pending timer
    that `Expire` runs. */
module Toasts {
  import opened Base

  datatype Kind = Error | Success | Info

  datatype Toast = Toast(id: string, message: string, kind: Kind, duration: int)

  /** A `setTimeout` that will remove the toast `id` after `delay` milliseconds. */
  datatype Timer = Timer(id: string, delay: int)

  const DefaultKind: Kind := Info
  const DefaultDuration: int := 3000

  /** `prev.filter((t) => t.id !== id)`. */
  function Dropped(toasts: seq<Toast>, id: string): (r: seq<Toast>)
    ensures |r| <= |toasts|
  {
    if toasts == [] then []
    else Dropped(toasts[..|toasts| - 1], id) + if toasts[|toasts| - 1].id == id then [] else [toasts[|toasts| - 1]]
  }

  /** Removal keeps exactly the toasts with another id. */
  lemma {:induction false} DroppedMembers(toasts: seq<Toast>, id: string, t: Toast)
    ensures t in Dropped(toasts, id) <==> t in toasts && t.id != id
  {
    if toasts != [] {
      var init := toasts[..|toasts| - 1];
      DroppedMembers(init, id, t);
      assert toasts == init + [toasts[|toasts| - 1]];
    }
  }

  /** Dropping works piece by piece: the toasts kept from a joined list are
      those kept from its first part followed by those kept from the rest. */
  lemma {:induction false} DroppedAppend(a: seq<Toast>, b: seq<Toast>, id: string)
    ensures Dropped(a + b, id) == Dropped(a, id) + Dropped(b, id)
  {
    if b == [] {
      assert a + b == a;
    } else {
      var init := b[..|b| - 1];
      var last := b[|b| - 1];
      var tail := if last.id == id then [] else [last];
      var ab := a + b;
      assert ab[..|ab| - 1] == a + init;
      assert ab[|ab| - 1] == last;
      assert Dropped(ab, id) == Dropped(a + init, id) + tail;
      assert Dropped(b, id) == Dropped(init, id) + tail;
      DroppedAppend(a, init, id);
      Regroup(Dropped(a, id), Dropped(init, id), tail);
    }
  }

  /** Removal keeps the remaining toasts in their order: of two kept toasts,
      the earlier one in the list is still the earlier one afterwards. */
  lemma DroppedKeepsOrder(toasts: seq<Toast>, id: string, i: nat, j: nat)
    requires i < j < |toasts| && toasts[i].id != id && toasts[j].id != id
    ensures var r := Dropped(toasts, id);
      exists p, q :: 0 <= p < q < |r| && r[p] == toasts[i] && r[q] == toasts[j]
  {
    var upto, rest := toasts[..j + 1], toasts[j + 1..];
    assert toasts == upto + rest;
    DroppedAppend(upto, rest, id);
    var before := toasts[..j];
    assert upto[..|upto| - 1] == before;
    var kept := Dropped(before, id);
    assert Dropped(upto, id) == kept + [toasts[j]];
    var r := kept + [toasts[j]] + Dropped(rest, id);
    assert Dropped(toasts, id) == r;
    assert toasts[i] == before[i];
    DroppedMembers(before, id, toasts[i]);
    var p :| 0 <= p < |kept| && kept[p] == toasts[i];
    assert r[p] == toasts[i];
    assert r[|kept|] == toasts[j];
  }

  /** Removing an id no toast has leaves the list as it is. */
  lemma {:induction false} DroppedAbsent(toasts: seq<Toast>, id: string)
    requires forall i :: 0 <= i < |toasts| ==> toasts[i].id != id
    ensures Dropped(toasts, id) == toasts
  {
    if toasts != [] {
      var init := toasts[..|toasts| - 1];
      var last := toasts[|toasts| - 1];
      forall i | 0 <= i < |init|
        ensures init[i].id != id
      {
        assert init[i] == toasts[i];
      }
      DroppedAbsent(init, id);
      assert Dropped(toasts, id) == Dropped(init, id) + [last];
      assert init + [last] == toasts;
    }
  }

  /** Removing twice is removing once. */
  lemma DroppedIdempotent(toasts: seq<Toast>, id: string)
    ensures Dropped(Dropped(toasts, id), id) == Dropped(toasts, id)
  {
    var r := Dropped(toasts, id);
    forall i | 0 <= i < |r|
      ensures r[i].id != id
    {
      DroppedMembers(toasts, id, r[i]);
    }
    DroppedAbsent(r, id);
  }

  /** The removal `add` schedules for a toast: one when its duration is positive, none otherwise. */
  function Scheduled(t: Toast): seq<Timer> {
    if t.duration > 0 then [Timer(t.id, t.duration)] else []
  }

  class ToastStore {
    var toasts: seq<Toast>
    var timers: seq<Timer>

    constructor()
      ensures toasts == [] && timers == []
    {
      toasts := [];
      timers := [];
    }

    /** `add(message, type = 'info', duration = 3000)` with the generated `id`:
        exactly one toast is appended, the earlier ones are unchanged, and a
        removal of its id is scheduled exactly when the duration is positive. */
    method Add(message: string, kind: Option<Kind>, duration: Option<int>, id: string)
      modifies this
      ensures toasts == old(toasts) + [Toast(id, message, kind.GetOr(DefaultKind), duration.GetOr(DefaultDuration))]
      ensures timers == old(timers) + Scheduled(toasts[|toasts| - 1])
      ensures |timers| == |old(timers)| + if duration.GetOr(DefaultDuration) > 0 then 1 else 0
    {
      var toast := Toast(id, message, kind.GetOr(DefaultKind), duration.GetOr(DefaultDuration));
      toasts := toasts + [toast];
      if toast.duration > 0 {
        timers := timers + [Timer(id, toast.duration)];
      }
    }

    /** `remove(id)`: every toast with the id is dropped, the rest keep their order. */
    method Remove(id: string)
      modifies this
      ensures toasts == Dropped(old(toasts), id)
      ensures timers == old(timers)
    {
      toasts := Dropped(toasts, id);
    }

    /** The `k`-th pending timer fires: it is gone and its toast is removed. */
    method Expire(k: nat)
      requires k < |timers|
      modifies this
      ensures toasts == Dropped(old(toasts), old(timers[k].id))
      ensures timers == old(timers[..k] + timers[k + 1..])
    {
      var id := timers[k].id;
      timers := timers[..k] + timers[k + 1..];
      Remove(id);
    }
  }

  /** A toast with a fresh id and a positive duration, added and then expired
      by the timer `Add` scheduled for it, leaves the toasts and the pending
      timers exactly as they were before the `Add`. */
  lemma AddThenExpire(toasts: seq<Toast>, timers: seq<Timer>, t: Toast)
    requires forall u | u in toasts :: u.id != t.id
    requires t.duration > 0
    ensures var added := timers + Scheduled(t);
      && |added| == |timers| + 1
      && added[|timers|].id == t.id
      && added[..|timers|] + added[|timers| + 1..] == timers
      && Dropped(toasts + [t], added[|timers|].id) == toasts
  {
    DroppedAppend(toasts, [t], t.id);
    forall i | 0 <= i < |toasts|
      ensures toasts[i].id != t.id
    {
      assert toasts[i] in toasts;
    }
    DroppedAbsent(toasts, t.id);
    assert Dropped([t], t.id) == [] by {
      assert [t][..0] == [];
    }
    var added := timers + Scheduled(t);
    assert added[..|timers|] == timers;
  }
}
