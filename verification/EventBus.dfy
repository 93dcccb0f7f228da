/**
 The in-process wake-up bus: one-slot channels under a key. The slot of a subscription is
 proved to be full exactly when a plain log of what happened says a wake-up is outstanding.
 */
module EventBus {
  import opened Wrappers

  datatype Op =
    | Subscribed(key: string, id: nat)
    | Unsubscribed(id: nat)
    | Notified(key: string)
    | Received(id: nat)

  // The channel made for a subscription: its one slot, and whether it was closed.
  datatype Chan = Chan(full: bool, closed: bool)

  // ---- What the log says

  // The key subscription id listens to after the log, if it still does.
  function KeyOf(log: seq<Op>, id: nat): Option<string> {
    if log == [] then None
    else match log[|log| - 1]
      case Subscribed(key, i) => if i == id then Some(key) else KeyOf(log[..|log| - 1], id)
      case Unsubscribed(i) => if i == id then None else KeyOf(log[..|log| - 1], id)
      case _ => KeyOf(log[..|log| - 1], id)
  }

  // Some notification for its key came after id subscribed and last received.
  function Outstanding(log: seq<Op>, id: nat): bool {
    if log == [] then false
    else
      var front := log[..|log| - 1];
      match log[|log| - 1]
      case Subscribed(key, i) => if i == id then false else Outstanding(front, id)
      case Notified(key) => KeyOf(front, id) == Some(key) || Outstanding(front, id)
      case Received(i) => if i == id then false else Outstanding(front, id)
      case Unsubscribed(i) => Outstanding(front, id)
  }

  // Many notifications or one: a notification for the key leaves the wake-up outstanding through
  // everything that follows until id itself receives, and then nothing is.
  lemma {:induction false} NotificationWaits(log: seq<Op>, more: seq<Op>, id: nat, key: string)
    requires KeyOf(log, id) == Some(key)
    requires forall i :: 0 <= i < |more| ==> more[i] != Received(id) && !(more[i].Subscribed? && more[i].id == id)
    ensures Outstanding(log + [Notified(key)] + more, id)
  {
    var all := log + [Notified(key)] + more;
    if more == [] {
      assert all[..|all| - 1] == log;
    } else {
      var less := more[..|more| - 1];
      NotificationWaits(log, less, id, key);
      assert all[..|all| - 1] == log + [Notified(key)] + less;
    }
  }

  lemma {:induction false} ReceiveSettles(log: seq<Op>, more: seq<Op>, id: nat)
    requires forall i :: 0 <= i < |more| ==> !more[i].Notified?
    ensures !Outstanding(log + [Received(id)] + more, id)
  {
    var all := log + [Received(id)] + more;
    if more == [] {
      assert all[|all| - 1] == Received(id);
    } else {
      var less := more[..|more| - 1];
      ReceiveSettles(log, less, id);
      assert all[..|all| - 1] == log + [Received(id)] + less;
      assert all[|all| - 1] == more[|more| - 1];
    }
  }

  // What one more operation does to the two readings of the log.
  lemma OneMore(log: seq<Op>, op: Op)
    ensures forall id: nat :: KeyOf(log + [op], id) ==
              match op
              case Subscribed(key, i) => if i == id then Some(key) else KeyOf(log, id)
              case Unsubscribed(i) => if i == id then None else KeyOf(log, id)
              case _ => KeyOf(log, id)
    ensures forall id: nat :: Outstanding(log + [op], id) ==
              match op
              case Subscribed(key, i) => i != id && Outstanding(log, id)
              case Notified(key) => KeyOf(log, id) == Some(key) || Outstanding(log, id)
              case Received(i) => i != id && Outstanding(log, id)
              case Unsubscribed(i) => Outstanding(log, id)
  {
  }

  // id subscribed to the key and has not ended that since.
  ghost predicate ListensSince(log: seq<Op>, i: int, id: nat, key: string) {
    0 <= i < |log| && log[i] == Subscribed(key, id)
    && forall j :: i < j < |log| ==> log[j] != Unsubscribed(id) && !(log[j].Subscribed? && log[j].id == id)
  }

  lemma {:induction false} ListensExactly(log: seq<Op>, id: nat, key: string)
    ensures KeyOf(log, id) == Some(key) <==> exists i :: ListensSince(log, i, id, key)
  {
    if log != [] {
      var n, front := |log| - 1, log[..|log| - 1];
      ListensExactly(front, id, key);
      if log[n] == Subscribed(key, id) {
        assert ListensSince(log, n, id, key);
      } else if i :| ListensSince(front, i, id, key) {
        assert log[n] != Unsubscribed(id) && !(log[n].Subscribed? && log[n].id == id) ==> ListensSince(log, i, id, key);
      }
      if i :| ListensSince(log, i, id, key) && i < n {
        assert ListensSince(front, i, id, key);
      }
    }
  }

  // A key that id listened to was notified, and id has not received or subscribed since.
  ghost predicate WaitsSince(log: seq<Op>, i: int, id: nat) {
    0 <= i < |log| && log[i].Notified? && KeyOf(log[..i], id) == Some(log[i].key)
    && forall j :: i < j < |log| ==> log[j] != Received(id) && !(log[j].Subscribed? && log[j].id == id)
  }

  lemma {:induction false} OutstandingExactly(log: seq<Op>, id: nat)
    ensures Outstanding(log, id) <==> exists i :: WaitsSince(log, i, id)
  {
    if log != [] {
      var n, front := |log| - 1, log[..|log| - 1];
      OutstandingExactly(front, id);
      hide KeyOf;
      forall i | 0 <= i < n ensures front[..i] == log[..i] {
      }
      if log[n].Notified? && KeyOf(front, id) == Some(log[n].key) {
        assert WaitsSince(log, n, id);
      } else if i :| WaitsSince(front, i, id) {
        assert log[n] != Received(id) && !(log[n].Subscribed? && log[n].id == id) ==> WaitsSince(log, i, id);
      }
      if i :| WaitsSince(log, i, id) && i < n {
        assert WaitsSince(front, i, id);
      }
    }
  }

  class Bus {
    var subs: map<string, set<nat>>
    var chans: map<nat, Chan>
    var next: nat
    ghost var log: seq<Op>

    // Subscribed ids are listed under their own key only, with an open channel whose slot is full
    // exactly when a wake-up is outstanding. No key is kept without subscribers.
    ghost predicate Valid()
      reads this
    {
      && (forall key: string, id: nat :: key in subs && id in subs[key] <==> KeyOf(log, id) == Some(key))
      && (forall key :: key in subs ==> subs[key] != {})
      && (forall id: nat :: KeyOf(log, id).Some? ==> id in chans && !chans[id].closed && chans[id].full == Outstanding(log, id))
      && (forall id: nat :: KeyOf(log, id).Some? || id in chans ==> id <= next)
    }

    constructor ()
      ensures Valid() && log == []
    {
      subs, chans, next, log := map[], map[], 0, [];
    }

    method SubscribeKey(key: string) returns (id: nat)
      requires Valid()
      modifies this
      ensures Valid()
      ensures log == old(log) + [Subscribed(key, id)]
      ensures KeyOf(old(log), id).None? && id !in old(chans)
      ensures KeyOf(log, id) == Some(key) && chans == old(chans)[id := Chan(false, false)]
    {
      next := next + 1;
      id := next;
      chans := chans[id := Chan(false, false)];
      subs := subs[key := (if key in subs then subs[key] else {}) + {id}];
      OneMore(log, Subscribed(key, id));
      log := log + [Subscribed(key, id)];
      forall k: string, j: nat ensures k in subs && j in subs[k] <==> KeyOf(log, j) == Some(k) {
        assert old(k in subs && j in subs[k]) <==> KeyOf(old(log), j) == Some(k);
      }
    }

    // The closure SubscribeKey returns; calling it twice is harmless.
    method Unsubscribe(key: string, id: nat)
      requires Valid()
      requires KeyOf(log, id) == Some(key) || KeyOf(log, id).None?
      modifies this
      ensures Valid()
      ensures log == if old(KeyOf(log, id)).None? then old(log) else old(log) + [Unsubscribed(id)]
      ensures KeyOf(log, id).None?
      ensures forall j :: j != id && j in old(chans) ==> j in chans && chans[j] == old(chans)[j]
    {
      if key in subs && id in subs[key] {
        OneMore(log, Unsubscribed(id));
        var left := subs[key] - {id};
        assert forall j: nat :: KeyOf(log, j) == Some(key) <==> j in subs[key];
        chans := chans[id := chans[id].(closed := true)];
        log := log + [Unsubscribed(id)];
        assert forall j :: j in subs[key] <==> j in left || j == id;
        if left == {} {
          subs := subs - {key};
        } else {
          subs := subs[key := left];
        }
      }
    }

    // A full slot takes no second signal; the sender never waits.
    method NotifyKey(key: string)
      requires Valid()
      modifies this
      ensures Valid()
      ensures log == old(log) + [Notified(key)]
      ensures chans.Keys == old(chans).Keys
      ensures forall id :: id in chans ==>
                chans[id] == if KeyOf(old(log), id) == Some(key) then Chan(true, false) else old(chans)[id]
    {
      ghost var start := chans;
      var chs := if key in subs then subs[key] else {};
      var rest := chs;
      while rest != {}
        invariant rest <= chs && subs == old(subs) && log == old(log) && next == old(next)
        invariant chans.Keys == start.Keys
        invariant forall id :: id in chans ==> chans[id] == if id in chs - rest then start[id].(full := true) else start[id]
        decreases rest
      {
        var id :| id in rest;
        assert KeyOf(log, id) == Some(key);
        if !chans[id].full {
          chans := chans[id := chans[id].(full := true)];
        }
        rest := rest - {id};
      }
      OneMore(log, Notified(key));
      log := log + [Notified(key)];
    }

    // What a wait on the channel does: it goes on at once if and only if a wake-up is outstanding.
    method TryReceive(id: nat) returns (woken: bool)
      requires Valid() && KeyOf(log, id).Some?
      modifies this
      ensures Valid()
      ensures woken == old(Outstanding(log, id)) && id in old(chans) && woken == old(chans)[id].full
      ensures chans == old(chans)[id := Chan(false, false)]
      ensures log == if woken then old(log) + [Received(id)] else old(log)
    {
      woken := chans[id].full;
      if woken {
        chans := chans[id := chans[id].(full := false)];
        OneMore(log, Received(id));
        log := log + [Received(id)];
      }
    }
  }
}
