/** The notification dispatcher as an object: it writes pending rows, counts the sends it
    spawns, and records how each ends. */
module Dispatching {
  import opened Domain
  import opened Tables
  import opened Replica
  import opened Repositories

  /** The tables after the first `n` looked-up channels were visited: a pending row for each that
      is enabled and whose insert succeeds. */
  function Announced(t: Tables, e: ExecId, channels: seq<Channel>, ids: nat -> NotifId,
                     fault: nat -> bool, n: nat): Tables
    requires n <= |channels|
  {
    if n == 0 then t
    else
      var t' := Announced(t, e, channels, ids, fault, n - 1);
      if Spawns(t, e, channels, fault, n - 1) then InsertNotif(t', ids(n - 1), e, channels[n - 1].id) else t'
  }

  predicate Spawns(t: Tables, e: ExecId, channels: seq<Channel>, fault: nat -> bool, i: nat)
    requires i < |channels|
  {
    channels[i].enabled && !fault(i) && e in t.execs && channels[i].id in t.chans
  }

  function Spawned(t: Tables, e: ExecId, channels: seq<Channel>, ids: nat -> NotifId,
                   fault: nat -> bool, n: nat): map<NotifId, Channel>
    requires n <= |channels|
  {
    if n == 0 then map[]
    else
      var sends := Spawned(t, e, channels, ids, fault, n - 1);
      if Spawns(t, e, channels, fault, n - 1) then sends[ids(n - 1) := channels[n - 1]] else sends
  }

  lemma {:induction false} AnnouncedFrame(t: Tables, e: ExecId, channels: seq<Channel>, ids: nat -> NotifId,
        fault: nat -> bool, n: nat)
    requires n <= |channels|
    ensures Announced(t, e, channels, ids, fault, n).(notifs := t.notifs) == t
  {
    if n > 0 {
      AnnouncedFrame(t, e, channels, ids, fault, n - 1);
    }
  }

  lemma {:induction false} NextIdIsNew(t: Tables, e: ExecId, channels: seq<Channel>, ids: nat -> NotifId,
        fault: nat -> bool, n: nat, sending: set<NotifId>)
    requires n <= |channels| && FreshIds(ids, t.notifs.Keys + sending)
    ensures Announced(t, e, channels, ids, fault, n).(notifs := t.notifs) == t
    ensures forall k: nat :: k >= n ==>
              && ids(k) !in Announced(t, e, channels, ids, fault, n).notifs
              && ids(k) !in Spawned(t, e, channels, ids, fault, n) && ids(k) !in sending
  {
    if n > 0 {
      NextIdIsNew(t, e, channels, ids, fault, n - 1, sending);
    }
  }

  /** The sends spawned are, each under its own new id, to exactly the looked-up channels that are
      enabled and whose row could be inserted. */
  lemma {:induction false} SpawnedSends(t: Tables, e: ExecId, channels: seq<Channel>, ids: nat -> NotifId,
        fault: nat -> bool, n: nat)
    requires n <= |channels| && FreshIds(ids, t.notifs.Keys)
    ensures var sends := Spawned(t, e, channels, ids, fault, n);
            && (forall i: nat :: i < n && channels[i].enabled && !fault(i) && e in t.execs
                                 && channels[i].id in t.chans ==>
                  ids(i) in sends && sends[ids(i)] == channels[i])
            && forall m :: m in sends ==> FromChannel(t, m, e, channels[..n], ids, fault)
  {
    if n > 0 {
      SpawnedSends(t, e, channels, ids, fault, n - 1);
      forall m | m in Spawned(t, e, channels, ids, fault, n)
        ensures FromChannel(t, m, e, channels[..n], ids, fault)
      {
        if m in Spawned(t, e, channels, ids, fault, n - 1) {
          MoreChannels(t, m, e, channels[..n - 1], channels[..n], ids, fault);
        } else {
          assert m == ids(n - 1) && channels[..n][n - 1] == channels[n - 1];
        }
      }
    }
  }

  /** Identifier `m` is that of a channel which is enabled, and whose row the database takes. */
  ghost predicate FromChannel(t: Tables, m: NotifId, e: ExecId, channels: seq<Channel>, ids: nat -> NotifId,
                              fault: nat -> bool) {
    exists i: nat :: && i < |channels| && m == ids(i)
                     && channels[i].enabled && !fault(i) && e in t.execs && channels[i].id in t.chans
  }

  lemma {:induction false} MoreChannels(t: Tables, m: NotifId, e: ExecId, channels: seq<Channel>, more: seq<Channel>,
        ids: nat -> NotifId, fault: nat -> bool)
    requires |channels| <= |more| && more[..|channels|] == channels && FromChannel(t, m, e, channels, ids, fault)
    ensures FromChannel(t, m, e, more, ids, fault)
  {
    var i: nat :| i < |channels| && m == ids(i)
                  && channels[i].enabled && !fault(i) && e in t.execs && channels[i].id in t.chans;
    assert more[i] == channels[i];
  }

  /** The new rows are exactly the spawned sends', each pending, for this execution and the
      channel being sent to; nothing else changes. */
  lemma {:induction false} AnnouncedRows(t: Tables, e: ExecId, channels: seq<Channel>, ids: nat -> NotifId,
        fault: nat -> bool, n: nat)
    requires n <= |channels| && FreshIds(ids, t.notifs.Keys)
    ensures var t', sends := Announced(t, e, channels, ids, fault, n), Spawned(t, e, channels, ids, fault, n);
            && t'.(notifs := t.notifs) == t
            && (forall m :: m in t.notifs ==> m in t'.notifs && m !in sends && t'.notifs[m] == t.notifs[m])
            && (forall m :: m in t'.notifs ==> m in t.notifs || m in sends)
            && (forall m :: m in sends ==>
                  m in t'.notifs && t'.notifs[m] == Notification(e, sends[m].id, Pending, "", None))
  {
    if n > 0 {
      AnnouncedRows(t, e, channels, ids, fault, n - 1);
    }
  }

  /** What a dispatch for execution `e` makes of the tables and the sends in flight: each looked-up
      channel that is enabled, whose row the database takes, has a new pending row and a new send,
      both under that channel's own id; and nothing else is new or changed. */
  ghost predicate Fanned(t: Tables, t': Tables, sends: map<NotifId, Channel>, sends': map<NotifId, Channel>,
                         e: ExecId, channels: seq<Channel>, ids: nat -> NotifId, fault: nat -> bool) {
    && t'.jobs == t.jobs && t'.execs == t.execs && t'.chans == t.chans
    && (forall i: nat :: i < |channels| && channels[i].enabled && !fault(i) && e in t.execs
                         && channels[i].id in t.chans ==>
          && ids(i) !in t.notifs && ids(i) in t'.notifs
          && t'.notifs[ids(i)] == Notification(e, channels[i].id, Pending, "", None)
          && ids(i) !in sends && ids(i) in sends' && sends'[ids(i)] == channels[i])
    && (forall m :: m in t'.notifs && m !in t.notifs ==> FromChannel(t, m, e, channels, ids, fault))
    && (forall m :: m in sends' && m !in sends ==> FromChannel(t, m, e, channels, ids, fault))
    && (forall m :: m in t.notifs ==> m in t'.notifs && t'.notifs[m] == t.notifs[m])
    && (forall m :: m in sends ==> m in sends' && sends'[m] == sends[m])
  }

  /** No two of the new rows are for the same channel. */
  ghost predicate OnePerChannel(t: Tables, t': Tables) {
    forall m, n | m in t'.notifs && m !in t.notifs && n in t'.notifs && n !in t.notifs ::
      t'.notifs[m].channelId == t'.notifs[n].channelId ==> m == n
  }

  lemma {:induction false} OneRowEach(t: Tables, t': Tables, sends: map<NotifId, Channel>,
        sends': map<NotifId, Channel>, e: ExecId, channels: seq<Channel>, ids: nat -> NotifId, fault: nat -> bool)
    requires Fanned(t, t', sends, sends', e, channels, ids, fault)
    requires forall i, k :: 0 <= i < k < |channels| ==> channels[i].id != channels[k].id
    ensures OnePerChannel(t, t')
  {
    forall m, n | m in t'.notifs && m !in t.notifs && n in t'.notifs && n !in t.notifs
                  && t'.notifs[m].channelId == t'.notifs[n].channelId
      ensures m == n
    {
      assert FromChannel(t, m, e, channels, ids, fault) && FromChannel(t, n, e, channels, ids, fault);
      var i: nat :| i < |channels| && m == ids(i)
                    && channels[i].enabled && !fault(i) && e in t.execs && channels[i].id in t.chans;
      var k: nat :| k < |channels| && n == ids(k)
                    && channels[k].enabled && !fault(k) && e in t.execs && channels[k].id in t.chans;
      assert t'.notifs[ids(i)].channelId == channels[i].id && t'.notifs[ids(k)].channelId == channels[k].id;
    }
  }

  lemma {:induction false} AnnouncedIsFanned(t: Tables, sends: map<NotifId, Channel>, e: ExecId, channels: seq<Channel>,
        ids: nat -> NotifId, fault: nat -> bool)
    requires FreshIds(ids, t.notifs.Keys + sends.Keys)
    ensures Fanned(t, Announced(t, e, channels, ids, fault, |channels|), sends,
                   sends + Spawned(t, e, channels, ids, fault, |channels|), e, channels, ids, fault)
  {
    var spawned := Spawned(t, e, channels, ids, fault, |channels|);
    assert channels[..|channels|] == channels;
    SpawnedSends(t, e, channels, ids, fault, |channels|);
    AnnouncedRows(t, e, channels, ids, fault, |channels|);
    forall m | m in spawned
      ensures m !in sends
    {
      assert FromChannel(t, m, e, channels, ids, fault);
    }
  }

  /** Visiting one more channel, told by the tables and the sends before and after. */
  lemma {:induction false} AnnouncedOn(t: Tables, e: ExecId, channels: seq<Channel>, ids: nat -> NotifId,
        fault: nat -> bool, n: nat, before: map<NotifId, Channel>)
    requires n < |channels| && FreshIds(ids, t.notifs.Keys + before.Keys)
    ensures var t', sends := Announced(t, e, channels, ids, fault, n), before + Spawned(t, e, channels, ids, fault, n);
            && ids(n) !in t'.notifs && ids(n) !in sends && t'.execs == t.execs && t'.chans == t.chans
            && before + Spawned(t, e, channels, ids, fault, n + 1)
               == if Spawns(t, e, channels, fault, n) then sends[ids(n) := channels[n]] else sends
  {
    NextIdIsNew(t, e, channels, ids, fault, n, before.Keys);
  }

  /** How a send ends: whether it is delivered, the error if not, and whether its status write fails. */
  datatype Ending = Ending(delivered: bool, message: string, fault: bool)

  /** The rows once the sends no longer in flight have recorded how they ended. */
  ghost predicate Ended(t: Tables, t': Tables, notifiers: set<string>, sends: map<NotifId, Channel>,
                        still: map<NotifId, Channel>, ends: NotifId -> Ending, now: Time)
  {
    && t'.(notifs := t.notifs) == t && t'.notifs.Keys == t.notifs.Keys
    && forall n :: n in t.notifs ==>
         t'.notifs[n] ==
           if n in sends && n !in still && !ends(n).fault
           then t.notifs[n].(status := if sends[n].kind in notifiers && ends(n).delivered then Sent else Failed,
                             error := if sends[n].kind !in notifiers
                                      then "no notifier registered for channel type " + sends[n].kind
                                      else if ends(n).delivered then "" else ends(n).message,
                             sentAt := if sends[n].kind in notifiers && ends(n).delivered then Some(now) else None)
           else t.notifs[n]
  }

  lemma {:induction false} EndedOn(t: Tables, m: Tables, t': Tables, notifiers: set<string>, sends: map<NotifId,
        Channel>, still: map<NotifId, Channel>, ends: NotifId -> Ending, now: Time, n: NotifId)
    requires Ended(t, m, notifiers, sends, still, ends, now) && n in still && n in sends && still[n] == sends[n]
    requires t' == if ends(n).fault then m
                   else UpdateNotif(m, n, SendStatus(notifiers, sends[n], ends(n).delivered),
                                    SendError(notifiers, sends[n], ends(n).delivered, ends(n).message), now)
    ensures Ended(t, t', notifiers, sends, still - {n}, ends, now)
  {
  }

  class Dispatcher {
    var notifiers: set<string>
    var wg: nat
    var sends: map<NotifId, Channel>
    const chanRepo: ChannelRepository
    const notifRepo: NotificationRepository

    constructor (chanRepo: ChannelRepository, notifRepo: NotificationRepository)
      requires chanRepo.pool == notifRepo.pool
      ensures Valid() && this.chanRepo == chanRepo && this.notifRepo == notifRepo
      ensures wg == 0 && sends == map[] && notifiers == {}
    {
      this.chanRepo, this.notifRepo := chanRepo, notifRepo;
      notifiers, wg, sends := {}, 0, map[];
    }

    ghost predicate Valid()
      reads this
    {
      chanRepo.pool == notifRepo.pool && wg == |sends|
    }

    method Register(kind: string)
      requires Valid()
      modifies this`notifiers
      ensures Valid() && notifiers == old(notifiers) + {kind}
    {
      notifiers := notifiers + {kind};
    }

    /** The body of the loop over the enabled channels: the row first, then the send. */
    method Announce(ch: Channel, e: ExecId, n: NotifId, fault: bool)
      requires Valid() && n !in sends && n !in notifRepo.pool.notifs
      modifies this`wg, this`sends, notifRepo.pool
      ensures Valid()
      ensures var t := old(notifRepo.pool.View());
              if !fault && e in t.execs && ch.id in t.chans
              then notifRepo.pool.View() == InsertNotif(t, n, e, ch.id) && sends == old(sends)[n := ch]
              else notifRepo.pool.View() == t && sends == old(sends)
    {
      var refused := notifRepo.Create(n, e, ch.id, fault);
      if refused {
        return;
      }
      wg := wg + 1;
      sends := sends[n := ch];
    }

    /** One turn of the loop over the channels looked up, of which `i` were visited since the
        tables were `t` and the sends `before`. */
    method Visit(channels: seq<Channel>, i: nat, e: ExecId, ids: nat -> NotifId, fault: nat -> bool,
                 ghost t: Tables, ghost before: map<NotifId, Channel>)
      requires Valid() && i < |channels| && FreshIds(ids, t.notifs.Keys + before.Keys)
      requires notifRepo.pool.View() == Announced(t, e, channels, ids, fault, i)
      requires sends == before + Spawned(t, e, channels, ids, fault, i)
      modifies this`wg, this`sends, notifRepo.pool
      ensures Valid()
      ensures notifRepo.pool.View() == Announced(t, e, channels, ids, fault, i + 1)
      ensures sends == before + Spawned(t, e, channels, ids, fault, i + 1)
    {
      AnnouncedOn(t, e, channels, ids, fault, i, before);
      if channels[i].enabled {
        Announce(channels[i], e, ids(i), fault(i));
      }
    }

    method AnnounceAll(channels: seq<Channel>, e: ExecId, ids: nat -> NotifId, fault: nat -> bool)
      requires Valid() && FreshIds(ids, notifRepo.pool.notifs.Keys + sends.Keys)
      modifies this`wg, this`sends, notifRepo.pool
      ensures Valid()
      ensures notifRepo.pool.View() == Announced(old(notifRepo.pool.View()), e, channels, ids, fault, |channels|)
      ensures sends == old(sends) + Spawned(old(notifRepo.pool.View()), e, channels, ids, fault, |channels|)
    {
      ghost var t, before := notifRepo.pool.View(), sends;
      var i := 0;
      while i < |channels|
        invariant 0 <= i <= |channels| && Valid()
        invariant notifRepo.pool.View() == Announced(t, e, channels, ids, fault, i)
        invariant sends == before + Spawned(t, e, channels, ids, fault, i)
      {
        Visit(channels, i, e, ids, fault, t, before);
        i := i + 1;
      }
    }

    /** Returns the channels it looked up. */
    method Dispatch(job: Job, e: ExecId, ids: nat -> NotifId, fetchFault: bool, fault: nat -> bool)
      returns (channels: seq<Channel>)
      requires Valid() && FreshIds(ids, notifRepo.pool.notifs.Keys + sends.Keys)
      requires forall c :: c in chanRepo.pool.chans ==> chanRepo.pool.chans[c].id == c
      modifies this`wg, this`sends, notifRepo.pool
      ensures Valid()
      ensures if job.notifyChannels == [] || fetchFault then channels == []
              else ChannelsOf(old(chanRepo.pool.chans), job.notifyChannels, channels)
      ensures notifRepo.pool.View() == Announced(old(notifRepo.pool.View()), e, channels, ids, fault, |channels|)
      ensures sends == old(sends) + Spawned(old(notifRepo.pool.View()), e, channels, ids, fault, |channels|)
      ensures Fanned(old(notifRepo.pool.View()), notifRepo.pool.View(), old(sends), sends, e, channels, ids, fault)
      ensures OnePerChannel(old(notifRepo.pool.View()), notifRepo.pool.View())
    {
      AnnouncedIsFanned(notifRepo.pool.View(), sends, e, [], ids, fault);
      channels := [];
      if job.notifyChannels == [] {
        return;
      }
      var failed;
      channels, failed := chanRepo.GetByIDs(job.notifyChannels, fetchFault);
      if failed {
        return;
      }
      ghost var t, before := notifRepo.pool.View(), sends;
      AnnouncedIsFanned(t, before, e, channels, ids, fault);
      AnnounceAll(channels, e, ids, fault);
      OneRowEach(t, notifRepo.pool.View(), before, sends, e, channels, ids, fault);
    }

    /** One send, up to its `wg.Done()`. */
    method Send(n: NotifId, end: Ending, now: Time)
      requires Valid() && n in sends
      modifies this`wg, this`sends, notifRepo.pool
      ensures Valid() && sends == old(sends) - {n} && wg == old(wg) - 1
      ensures notifRepo.pool.View() ==
                if end.fault then old(notifRepo.pool.View())
                else UpdateNotif(old(notifRepo.pool.View()), n, SendStatus(notifiers, old(sends)[n], end.delivered),
                                 SendError(notifiers, old(sends)[n], end.delivered, end.message), now)
      ensures var ch, pool := old(sends)[n], notifRepo.pool;
              pool.notifs ==
                if end.fault || n !in old(pool.notifs) then old(pool.notifs)
                else if ch.kind in notifiers && end.delivered
                then old(pool.notifs)[n := old(pool.notifs)[n].(status := Sent, error := "", sentAt := Some(now))]
                else if ch.kind in notifiers
                then old(pool.notifs)[n := old(pool.notifs)[n].(status := Failed, error := end.message, sentAt := None)]
                else old(pool.notifs)[n := old(pool.notifs)[n].(
                       status := Failed, error := "no notifier registered for channel type " + ch.kind, sentAt := None)]
    {
      var ch := sends[n];
      var failed: bool;
      if ch.kind !in notifiers {
        var error := "no notifier registered for channel type " + ch.kind;
        failed := notifRepo.UpdateStatus(n, Failed, error, now, end.fault);
      } else if !end.delivered {
        failed := notifRepo.UpdateStatus(n, Failed, end.message, now, end.fault);
      } else {
        failed := notifRepo.UpdateStatus(n, Sent, "", now, end.fault);
      }
      assert (sends - {n}).Keys == sends.Keys - {n};
      assert |(sends - {n}).Keys| == |sends.Keys| - 1;
      sends := sends - {n};
      wg := wg - 1;
    }

    /** Blocks until the count is zero: by then every send in flight has left its row sent or
        failed, unless the status write failed, and touched no other row. */
    method Wait(ends: NotifId -> Ending, now: Time)
      requires Valid()
      modifies this`wg, this`sends, notifRepo.pool
      ensures Valid() && wg == 0 && sends == map[]
      ensures Ended(old(notifRepo.pool.View()), notifRepo.pool.View(), notifiers, old(sends), map[], ends, now)
    {
      ghost var t, before := notifRepo.pool.View(), sends;
      while wg != 0
        invariant Valid() && (forall n :: n in sends ==> n in before && sends[n] == before[n])
        invariant Ended(t, notifRepo.pool.View(), notifiers, before, sends, ends, now)
        decreases wg
      {
        ghost var some := Member(sends.Keys);
        var n :| n in sends;
        ghost var m, still := notifRepo.pool.View(), sends;
        Send(n, ends(n), now);
        EndedOn(t, m, notifRepo.pool.View(), notifiers, before, still, ends, now, n);
      }
      assert sends.Keys == {};
    }
  }
}
