/** Which execution ids exist, who holds them, and what that says about the rows: every
    `running` row has exactly one owner, or was lost to a crash or a failed write. */
module Ownership {
  import opened Domain
  import opened Tables
  import opened Replica
  import opened ReplicaInvariants
  import opened System

  // ---------------------------------------------------------------- claims a process holds

  predicate InQueue(q: seq<Queued>, c: Claim) {
    exists p :: 0 <= p < |q| && q[p].claim == c
  }

  predicate InHands(ws: seq<Worker>, c: Claim) {
    exists w :: 0 <= w < |ws| && ws[w].Busy? && ws[w].claim == c
  }

  predicate Holds(rep: Replica, c: Claim) {
    c in rep.batch || InQueue(rep.queue, c) || InHands(rep.workers, c)
  }

  lemma {:induction false} EnqueueHeld(env: Env, now: Time, rep: Replica, c: Claim)
    requires CanTick(now, rep, Enqueue) && Holds(TickNext(env, now, rep, Enqueue), c)
    ensures Holds(rep, c)
  {
    var rep' := TickNext(env, now, rep, Enqueue);
    if InQueue(rep'.queue, c) {
      var p :| 0 <= p < |rep'.queue| && rep'.queue[p].claim == c;
      if p < |rep.queue| {
        assert rep.queue[p].claim == c;
      } else {
        assert rep.batch[0] == c;
      }
    }
  }

  lemma {:induction false} TickHeld(env: Env, now: Time, rep: Replica, t: TickAct, c: Claim)
    requires CanTick(now, rep, t) && Holds(TickNext(env, now, rep, t), c)
    ensures Holds(rep, c) || (t.Commit? && c in rep.tx.claims)
  {
    if t.Enqueue? {
      EnqueueHeld(env, now, rep, c);
    } else {
      var rep' := TickNext(env, now, rep, t);
      assert rep'.workers == rep.workers && rep'.queue == rep.queue;
    }
  }

  lemma {:induction false} HandsHeld(rep: Replica, rep': Replica, w: nat, wk: Worker, c: Claim)
    requires w < |rep.workers| && rep'.batch == rep.batch && rep'.workers == rep.workers[w := wk]
    requires rep'.queue == rep.queue || (rep.queue != [] && rep'.queue == rep.queue[1..])
    requires wk.Busy? ==> Holds(rep, wk.claim)
    requires Holds(rep', c)
    ensures Holds(rep, c)
  {
    if InQueue(rep'.queue, c) {
      var p :| 0 <= p < |rep'.queue| && rep'.queue[p].claim == c;
      assert rep'.queue[p] == rep.queue[if rep'.queue == rep.queue then p else p + 1];
    } else if InHands(rep'.workers, c) {
      var v :| 0 <= v < |rep'.workers| && rep'.workers[v].Busy? && rep'.workers[v].claim == c;
      assert v != w ==> rep.workers[v] == rep'.workers[v];
    }
  }

  lemma {:induction false} WorkHeld(env: Env, now: Time, rep: Replica, w: nat, a: WorkAct, c: Claim)
    requires w < |rep.workers| && CanWork(rep, rep.workers[w], a) && Holds(WorkNext(env, now, rep, w, a), c)
    ensures Holds(rep, c)
  {
    if a.Dequeue? {
      assert InQueue(rep.queue, rep.queue[0].claim);
    } else {
      assert rep.workers[w].Busy? ==> InHands(rep.workers, rep.workers[w].claim);
    }
    HandsHeld(rep, WorkNext(env, now, rep, w, a), w, WorkerNext(env, now, rep, rep.workers[w], a), c);
  }

  /** A process comes to hold a claim only by committing it. */
  lemma {:induction false} ActHeld(env: Env, now: Time, rep: Replica, act: Act, c: Claim)
    requires CanAct(now, rep, act) && Holds(Next(env, now, rep, act), c)
    ensures Holds(rep, c) || (act == Tick(Commit) && c in rep.tx.claims)
  {
    match act
    case Tick(t) => TickHeld(env, now, rep, t, c);
    case Work(w, a) => WorkHeld(env, now, rep, w, a, c);
    case _ =>
  }

  // ---------------------------------------------------------------- identifiers

  ghost predicate AllLocal(s: State) {
    forall r :: r in s.reps ==> LocalOk(s.reps[r])
  }

  /** Tickets are exactly the claims the processes remember, each with the process it went to. */
  ghost predicate TicketsOk(s: State) {
    && (forall e :: e in s.tickets ==>
          && e in s.issued && s.issued[e] == s.tickets[e].rep && s.tickets[e].claim.execId == e
          && s.tickets[e].rep in s.reps && e in s.reps[s.tickets[e].rep].claimed)
    && (forall r, e :: r in s.reps && e in s.reps[r].claimed ==> e in s.tickets && s.tickets[e].rep == r)
  }

  /** The ids of an open transaction were issued to it and are not committed yet. */
  ghost predicate TxIdsOk(s: State) {
    forall r, e :: r in s.reps && s.reps[r].tx.Looping? && e in ClaimIds(s.reps[r].tx.claims) ==>
      e in s.issued && s.issued[e] == r && e !in s.tickets
  }

  ghost predicate IdsOk(s: State) {
    TicketsOk(s) && TxIdsOk(s)
  }

  lemma {:induction false} FreshEnough(env: Env, s: State, r: ReplicaId, act: Act)
    requires Enabled(env, s, Do(r, act)) && IdsOk(s)
    ensures NewId(s.reps[r], act)
    ensures DistinctAnswer(act)
  {
    if act.Work? && act.a.FetchChannels? && act.a.ok {
      assert ChannelsOf(s.db.chans, s.reps[r].workers[act.w].claim.job.notifyChannels, act.a.targets);
    }
  }

  lemma {:induction false} RepFrame(env: Env, now: Time, rep: Replica, act: Act)
    requires CanAct(now, rep, act) && act != Tick(Commit)
    ensures var rep' := Next(env, now, rep, act);
            && rep'.claimed == rep.claimed
            && (rep'.tx.Looping? && !(act.Tick? && act.t.AdvanceRow?) ==>
                  (rep.tx.Looping? && rep'.tx.claims == rep.tx.claims) || rep'.tx.claims == [])
  {
    match act
    case Tick(t) => TickFrame(env, now, rep, t);
    case Work(w, a) => WorkFrame(env, now, rep, w, a);
    case _ =>
  }

  lemma {:induction false} TickFrame(env: Env, now: Time, rep: Replica, t: TickAct)
    requires CanTick(now, rep, t) && !t.Commit?
    ensures var rep' := TickNext(env, now, rep, t);
            && rep'.claimed == rep.claimed
            && (rep'.tx.Looping? && !t.AdvanceRow? ==>
                  (rep.tx.Looping? && rep'.tx.claims == rep.tx.claims) || rep'.tx.claims == [])
  {
  }

  lemma {:induction false} WorkFrame(env: Env, now: Time, rep: Replica, w: nat, a: WorkAct)
    requires w < |rep.workers| && CanWork(rep, rep.workers[w], a)
    ensures var rep' := WorkNext(env, now, rep, w, a);
            rep'.claimed == rep.claimed && rep'.tx == rep.tx && rep'.batch == rep.batch && rep'.phase == rep.phase
  {
  }

  lemma {:induction false} DoKeepsLocal(env: Env, s: State, r: ReplicaId, act: Act)
    requires Enabled(env, s, Do(r, act)) && IdsOk(s)
    requires LocalOk(s.reps[r])
    ensures LocalOk(Next(env, s.now, s.reps[r], act))
  {
    FreshEnough(env, s, r, act);
    LocalKept(env, s.now, s.reps[r], act);
  }

  lemma {:induction false} CommitTicketsOk(s: State, s': State, r: ReplicaId, rep': Replica, ids: seq<ExecId>)
    requires TicketsOk(s) && r in s.reps && s'.reps == s.reps[r := rep'] && s'.issued == s.issued
    requires rep'.claimed == s.reps[r].claimed + ids
    requires forall e :: e in s'.tickets <==> e in s.tickets || e in ids
    requires forall e :: e in s.tickets && e !in ids ==> s'.tickets[e] == s.tickets[e]
    requires forall e :: e in ids ==>
               s'.tickets[e].rep == r && s'.tickets[e].claim.execId == e && e in s.issued && s.issued[e] == r
    requires forall e :: e in ids ==> e !in s.tickets
    ensures TicketsOk(s')
  {
    forall q, e | q in s'.reps && e in s'.reps[q].claimed
      ensures e in s'.tickets && s'.tickets[e].rep == q
    {
      if e in ids && q == r {
      } else {
        assert e in s.reps[q].claimed;
      }
    }
  }

  lemma {:induction false} CommitTxIds(s: State, s': State, r: ReplicaId, rep': Replica, ids: seq<ExecId>)
    requires TxIdsOk(s) && r in s.reps && s'.reps == s.reps[r := rep'] && s'.issued == s.issued
    requires rep'.tx.NoTx?
    requires forall e :: e in s'.tickets <==> e in s.tickets || e in ids
    requires forall e :: e in ids ==> e in s.issued && s.issued[e] == r
    ensures TxIdsOk(s')
  {
  }

  lemma {:induction false} CommitTickets(env: Env, s: State, r: ReplicaId)
    requires Enabled(env, s, Do(r, Tick(Commit)))
    ensures var ids, s' := ClaimIds(s.reps[r].tx.claims), After(env, s, Do(r, Tick(Commit)));
            && s'.issued == s.issued
            && (forall e :: e in s'.tickets <==> e in s.tickets || e in ids)
            && (forall e :: e in s.tickets && e !in ids ==> s'.tickets[e] == s.tickets[e])
            && (forall e :: e in ids ==> (e in s'.tickets
                  && s'.tickets[e].rep == r && s'.tickets[e].claim.execId == e
                  && s'.tickets[e].claim in s.reps[r].tx.claims
                  && s'.tickets[e].writesSeen == |s'.jobWrites|))
  {
  }

  lemma {:induction false} AdvanceTickets(s: State, s': State, r: ReplicaId, rep': Replica, e: ExecId)
    requires TicketsOk(s) && r in s.reps && e !in s.issued && s'.reps == s.reps[r := rep']
    requires s'.issued == s.issued[e := r] && s'.tickets == s.tickets && rep'.claimed == s.reps[r].claimed
    ensures TicketsOk(s')
  {
  }

  lemma {:induction false} AdvanceTxIds(s: State, s': State, r: ReplicaId, rep': Replica, e: ExecId)
    requires TxIdsOk(s) && r in s.reps && e !in s.issued && e !in s.tickets && s'.reps == s.reps[r := rep']
    requires s'.issued == s.issued[e := r] && s'.tickets == s.tickets && s.reps[r].tx.Looping? && rep'.tx.Looping?
    requires forall x :: x in ClaimIds(rep'.tx.claims) ==> x in ClaimIds(s.reps[r].tx.claims) || x == e
    ensures TxIdsOk(s')
  {
    forall q, x | q in s'.reps && s'.reps[q].tx.Looping? && x in ClaimIds(s'.reps[q].tx.claims)
      ensures x in s'.issued && s'.issued[x] == q && x !in s'.tickets
    {
      assert q != r ==> s'.reps[q] == s.reps[q];
    }
  }

  lemma {:induction false} AdvanceIds(s: State, s': State, r: ReplicaId, rep': Replica, e: ExecId)
    requires IdsOk(s) && r in s.reps && e !in s.issued && s'.reps == s.reps[r := rep']
    requires s'.issued == s.issued[e := r] && s'.tickets == s.tickets
    requires rep'.claimed == s.reps[r].claimed && s.reps[r].tx.Looping? && rep'.tx.Looping?
    requires forall x :: x in ClaimIds(rep'.tx.claims) ==> x in ClaimIds(s.reps[r].tx.claims) || x == e
    ensures IdsOk(s')
  {
    AdvanceTickets(s, s', r, rep', e);
    AdvanceTxIds(s, s', r, rep', e);
  }

  lemma {:induction false} AdvanceClaims(cron: Cron, now: Time, tx: Tx, e: ExecId)
    requires tx.Looping? && tx.pos < |tx.rows|
    ensures forall x :: x in ClaimIds(LoopOver(cron, now, tx, e).claims) ==> x in ClaimIds(tx.claims) || x == e
  {
    var claims' := LoopOver(cron, now, tx, e).claims;
    if claims' != tx.claims {
      ClaimIdsSplit(claims');
      assert claims'[..|claims'| - 1] == tx.claims;
    }
  }

  /** Steps that hand out and commit no id. */
  lemma {:induction false} QuietIds(s: State, s': State, r: ReplicaId, rep': Replica)
    requires IdsOk(s) && r in s.reps && s'.reps == s.reps[r := rep']
    requires s'.issued == s.issued && s'.tickets == s.tickets
    requires rep'.claimed == s.reps[r].claimed
    requires rep'.tx.Looping? ==>
               (s.reps[r].tx.Looping? && rep'.tx.claims == s.reps[r].tx.claims) || rep'.tx.claims == []
    ensures IdsOk(s')
  {
    QuietTickets(s, s', r, rep');
    forall q, e | q in s'.reps && s'.reps[q].tx.Looping? && e in ClaimIds(s'.reps[q].tx.claims)
      ensures e in s'.issued && s'.issued[e] == q && e !in s'.tickets
    {
      assert q != r ==> s'.reps[q] == s.reps[q];
    }
  }

  lemma {:induction false} QuietTickets(s: State, s': State, r: ReplicaId, rep': Replica)
    requires TicketsOk(s) && r in s.reps && s'.reps == s.reps[r := rep'] && rep'.claimed == s.reps[r].claimed
    requires s'.issued == s.issued && s'.tickets == s.tickets
    ensures TicketsOk(s')
  {
  }

  lemma {:induction false} DoKeepsIds(env: Env, s: State, r: ReplicaId, act: Act)
    requires Enabled(env, s, Do(r, act)) && IdsOk(s)
    ensures IdsOk(After(env, s, Do(r, act)))
  {
    var s', rep' := After(env, s, Do(r, act)), Next(env, s.now, s.reps[r], act);
    if act == Tick(Commit) {
      CommitTickets(env, s, r);
      CommitTicketsOk(s, s', r, rep', ClaimIds(s.reps[r].tx.claims));
      CommitTxIds(s, s', r, rep', ClaimIds(s.reps[r].tx.claims));
    } else if act.Tick? && act.t.AdvanceRow? {
      AdvanceClaims(env.cron, s.now, s.reps[r].tx, act.t.execId);
      AdvanceIds(s, s', r, rep', act.t.execId);
    } else {
      RepFrame(env, s.now, s.reps[r], act);
      QuietIds(s, s', r, rep');
    }
  }

  // ---------------------------------------------------------------- held claims

  /** Every claim a process holds is the one its ticket records. */
  ghost predicate HeldOk(s: State) {
    forall r, c :: r in s.reps && Holds(s.reps[r], c) ==>
      c.execId in s.tickets && s.tickets[c.execId].claim == c && s.tickets[c.execId].rep == r
  }

  lemma {:induction false} NewTicketOf(r: ReplicaId, claims: seq<Claim>, n: nat, c: Claim)
    requires NoDup(ClaimIds(claims)) && c in claims
    ensures c.execId in ClaimIds(claims) && NewTickets(r, claims, n)[c.execId] == Ticket(r, c, n)
  {
    var k :| 0 <= k < |claims| && claims[k] == c;
    var i := IndexOf(claims, ClaimIds(claims)[k]);
    assert ClaimIds(claims)[i] == ClaimIds(claims)[k];
  }

  lemma {:induction false} DoKeepsHeld(env: Env, s: State, r: ReplicaId, act: Act)
    requires Enabled(env, s, Do(r, act)) && IdsOk(s) && HeldOk(s) && TxFresh(s.reps[r])
    ensures HeldOk(After(env, s, Do(r, act)))
  {
    var s', rep' := After(env, s, Do(r, act)), Next(env, s.now, s.reps[r], act);
    forall q, c | q in s'.reps && Holds(s'.reps[q], c)
      ensures c.execId in s'.tickets && s'.tickets[c.execId].claim == c && s'.tickets[c.execId].rep == q
    {
      if q == r {
        ActHeld(env, s.now, s.reps[r], act, c);
      }
      if act == Tick(Commit) {
        CommitTickets(env, s, r);
        var claims := s.reps[r].tx.claims;
        TxIdsDistinct(s.reps[r]);
        if c.execId in ClaimIds(claims) {
          if q == r && c in claims {
            NewTicketOf(r, claims, |s'.jobWrites|, c);
          }
        }
      }
    }
  }

  lemma {:induction false} TxIdsDistinct(rep: Replica)
    requires TxFresh(rep) && rep.tx.Looping?
    ensures NoDup(ClaimIds(rep.tx.claims))
  {
    var all, n := rep.claimed + ClaimIds(rep.tx.claims), |rep.claimed|;
    forall i, k | 0 <= i < k < |rep.tx.claims|
      ensures ClaimIds(rep.tx.claims)[i] != ClaimIds(rep.tx.claims)[k]
    {
      assert all[n + i] != all[n + k];
    }
  }

  // ---------------------------------------------------------------- execution rows

  /** Every row is some ticket's, and is `running` until its owner writes the verdict or a
      recovery marks it. */
  ghost predicate ExecOk(s: State, e: ExecId)
    requires e in s.db.execs
  {
    && e in s.tickets && s.tickets[e].rep in s.reps
    && s.db.execs[e].jobId == s.tickets[e].claim.job.id
    && s.db.execs[e].startedAt == s.tickets[e].claim.startedAt
    && (s.db.execs[e].status == Running <==> e !in s.reps[s.tickets[e].rep].done && e !in s.recovered)
  }

  ghost predicate ExecsOk(s: State) {
    && (forall e :: e in s.db.execs ==> ExecOk(s, e))
    && (forall e :: e in s.recovered ==> e in s.tickets)
  }

  /** The execution whose terminal write the step attempts, if any. */
  function Settles(rep: Replica, act: Act): Option<ExecId> {
    if act.Tick? && (act.t.ShedOnShutdown? || act.t.ShedOnTimeout?) && rep.batch != []
    then Some(rep.batch[0].execId)
    else if act.Work? && act.a.Finish? && act.w < |rep.workers| && rep.workers[act.w].Busy?
    then Some(rep.workers[act.w].claim.execId)
    else None
  }

  function SettleOk(act: Act): bool {
    if act.Tick? then (act.t.ShedOnShutdown? && act.t.ok) || (act.t.ShedOnTimeout? && act.t.ok)
    else act.Work? && act.a.Finish? && act.a.ok
  }

  /** The terminal columns the step writes. */
  function TerminalWrite(env: Env, s: State, rep: Replica, act: Act): Terminal
    requires CanAct(s.now, rep, act) && Settles(rep, act).Some?
  {
    if act.Work? then
      var wk := rep.workers[act.w];
      RunResult(env.executors, wk.claim.job, act.a.outcome, wk.startAt, s.now)
    else ShedResult(if act.t.ShedOnShutdown? then "scheduler shutting down" else "worker pool saturated", s.now)
  }

  lemma {:induction false} WorkDoneAfter(env: Env, now: Time, rep: Replica, w: nat, a: WorkAct)
    requires w < |rep.workers| && CanWork(rep, rep.workers[w], a)
    ensures WorkNext(env, now, rep, w, a).done
         == if a.Finish? && a.ok then rep.done + {rep.workers[w].claim.execId} else rep.done
  {
  }

  lemma {:induction false} TickDoneAfter(env: Env, now: Time, rep: Replica, t: TickAct)
    requires CanTick(now, rep, t)
    ensures TickNext(env, now, rep, t).done
         == if (t.ShedOnShutdown? && t.ok) || (t.ShedOnTimeout? && t.ok)
            then rep.done + {rep.batch[0].execId} else rep.done
  {
  }

  lemma {:induction false} DoneAfter(env: Env, now: Time, rep: Replica, act: Act)
    requires CanAct(now, rep, act)
    ensures Next(env, now, rep, act).done
         == if Settles(rep, act).Some? && SettleOk(act) then rep.done + {Settles(rep, act).value} else rep.done
  {
    match act
    case Tick(t) => TickDoneAfter(env, now, rep, t);
    case Work(w, a) => WorkDoneAfter(env, now, rep, w, a);
    case _ =>
  }

  /** How a replica's step changes the execution rows. */
  lemma {:induction false} ExecsAfter(env: Env, s: State, r: ReplicaId, act: Act)
    requires r in s.reps && CanAct(s.now, s.reps[r], act)
    ensures var db' := DoDb(env, s, r, act); var rep := s.reps[r];
            db'.execs ==
              if act == Tick(Commit) then ApplyClaims(s.db, rep.tx.claims, rep.tx.at).execs
              else if Settles(rep, act).Some? && SettleOk(act)
              then UpdateExec(s.db, Settles(rep, act).value, TerminalWrite(env, s, rep, act)).execs
              else if act.Recover? && act.ok then RecoverStale(s.db, s.now - STALE_RUNNING_AGE, s.now).execs
              else s.db.execs
  {
  }

  lemma {:induction false} SettledIsOwned(s: State, r: ReplicaId, act: Act)
    requires r in s.reps && CanAct(s.now, s.reps[r], act) && Settles(s.reps[r], act).Some?
    requires HeldOk(s) && LocalOk(s.reps[r])
    ensures var e := Settles(s.reps[r], act).value;
            && e in s.tickets && s.tickets[e].rep == r && e in Places(s.reps[r])
            && e !in s.reps[r].done && e !in s.reps[r].failed
  {
    var rep := s.reps[r];
    if act.Tick? {
      assert Places(rep)[0] == rep.batch[0].execId;
      assert Holds(rep, rep.batch[0]);
    } else {
      ExecutingMember(rep.workers, act.w);
      assert InHands(rep.workers, rep.workers[act.w].claim);
      assert Holds(rep, rep.workers[act.w].claim);
    }
    PlacedOnce(rep, Settles(rep, act).value);
  }

  lemma {:induction false} SettleKeepsExecs(s: State, s': State, r: ReplicaId, rep': Replica, e: ExecId, u: Terminal)
    requires ExecsOk(s) && r in s.reps && e in s.tickets && s.tickets[e].rep == r
    requires s'.reps == s.reps[r := rep'] && rep'.done == s.reps[r].done + {e}
    requires s'.tickets == s.tickets && s'.recovered == s.recovered
    requires s'.db.execs == UpdateExec(s.db, e, u).execs && u.status != Running
    ensures ExecsOk(s')
  {
  }

  lemma {:induction false} RecoverKeepsExecs(s: State, s': State, r: ReplicaId, rep': Replica, cutoff: Time)
    requires ExecsOk(s) && r in s.reps && s'.reps == s.reps[r := rep'] && rep'.done == s.reps[r].done
    requires s'.tickets == s.tickets && s'.recovered == s.recovered + StaleRows(s.db, cutoff)
    requires s'.db.execs == RecoverStale(s.db, cutoff, s.now).execs
    ensures ExecsOk(s')
  {
  }

  lemma {:induction false} QuietKeepsExecs(s: State, s': State, r: ReplicaId, rep': Replica)
    requires ExecsOk(s) && r in s.reps && s'.reps == s.reps[r := rep'] && rep'.done == s.reps[r].done
    requires s'.tickets == s.tickets && s'.recovered == s.recovered && s'.db.execs == s.db.execs
    ensures ExecsOk(s')
  {
  }

  lemma {:induction false} CommitRow(env: Env, s: State, r: ReplicaId, e: ExecId)
    requires Enabled(env, s, Do(r, Tick(Commit))) && TxFresh(s.reps[r]) && TxJobsOk(s, s.reps[r])
    requires e in ClaimIds(s.reps[r].tx.claims)
    ensures var s' := After(env, s, Do(r, Tick(Commit)));
            && e in s'.tickets && e in s'.db.execs && s'.tickets[e].rep == r
            && s'.db.execs[e].jobId == s'.tickets[e].claim.job.id
            && s'.db.execs[e].startedAt == s'.tickets[e].claim.startedAt
            && s'.db.execs[e].status == Running
  {
    var rep, s' := s.reps[r], After(env, s, Do(r, Tick(Commit)));
    var claims := rep.tx.claims;
    TxIdsDistinct(rep);
    var k := IndexOf(claims, e);
    NewTicketOf(r, claims, |s'.jobWrites|, claims[k]);
    ApplyClaimsAt(s.db, claims, rep.tx.at, k);
  }

  /** The claims of an open transaction are of distinct jobs, all stored. */
  ghost predicate TxJobsOk(s: State, rep: Replica) {
    rep.tx.Looping? ==>
      && DistinctJobs(rep.tx.claims)
      && forall i :: 0 <= i < |rep.tx.claims| ==> rep.tx.claims[i].job.id in s.db.jobs
  }

  lemma {:induction false} CommitMakesNew(env: Env, s: State, r: ReplicaId, e: ExecId)
    requires Enabled(env, s, Do(r, Tick(Commit))) && Placed(s.reps[r]) && IdsOk(s) && ExecsOk(s)
    requires e in ClaimIds(s.reps[r].tx.claims)
    ensures e !in s.reps[r].done && e !in s.recovered && e !in s.db.execs
  {
    assert CanTick(s.now, s.reps[r], Commit);
    assert e !in s.tickets;
    assert e !in s.reps[r].claimed;
    PlacedOnce(s.reps[r], e);
  }

  lemma {:induction false} CommitKeepsExecs(env: Env, s: State, r: ReplicaId)
    requires Enabled(env, s, Do(r, Tick(Commit))) && TxFresh(s.reps[r]) && Placed(s.reps[r])
    requires TxJobsOk(s, s.reps[r]) && IdsOk(s) && ExecsOk(s)
    ensures ExecsOk(After(env, s, Do(r, Tick(Commit))))
  {
    var s' := After(env, s, Do(r, Tick(Commit)));
    assert s'.recovered == s.recovered && s'.reps == s.reps[r := s'.reps[r]];
    assert s'.reps[r].done == s.reps[r].done;
    CommitTickets(env, s, r);
    ApplyClaimsExecs(s.db, s.reps[r].tx.claims, s.reps[r].tx.at);
    forall e | e in s'.db.execs
      ensures ExecOk(s', e)
    {
      if e in ClaimIds(s.reps[r].tx.claims) {
        CommitRow(env, s, r, e);
        CommitMakesNew(env, s, r, e);
      } else {
        assert ExecOk(s, e);
      }
    }
  }

  /** The process took the step; its tickets and the recovered rows are as the step says. */
  ghost predicate Acted(env: Env, s: State, s': State, r: ReplicaId, act: Act) {
    && r in s.reps && CanAct(s.now, s.reps[r], act) && act != Tick(Commit)
    && s'.reps == s.reps[r := Next(env, s.now, s.reps[r], act)] && s'.db == DoDb(env, s, r, act)
    && s'.tickets == s.tickets && s'.recovered == RecoveredAfter(s, act)
  }

  lemma {:induction false} SettlingKeepsExecs(env: Env, s: State, s': State, r: ReplicaId, act: Act)
    requires Acted(env, s, s', r, act) && Settles(s.reps[r], act).Some? && SettleOk(act)
    requires LocalOk(s.reps[r]) && HeldOk(s) && ExecsOk(s)
    ensures ExecsOk(s')
  {
    var rep, rep' := s.reps[r], Next(env, s.now, s.reps[r], act);
    DoneAfter(env, s.now, rep, act);
    ExecsAfter(env, s, r, act);
    SettledIsOwned(s, r, act);
    SettleKeepsExecs(s, s', r, rep', Settles(rep, act).value, TerminalWrite(env, s, rep, act));
  }

  lemma {:induction false} MarkingKeepsExecs(env: Env, s: State, s': State, r: ReplicaId, act: Act)
    requires Acted(env, s, s', r, act) && act.Recover? && act.ok && ExecsOk(s)
    ensures ExecsOk(s')
  {
    DoneAfter(env, s.now, s.reps[r], act);
    ExecsAfter(env, s, r, act);
    RecoverKeepsExecs(s, s', r, Next(env, s.now, s.reps[r], act), s.now - STALE_RUNNING_AGE);
  }

  lemma {:induction false} RestKeepsExecs(env: Env, s: State, s': State, r: ReplicaId, act: Act)
    requires Acted(env, s, s', r, act) && ExecsOk(s)
    requires !(Settles(s.reps[r], act).Some? && SettleOk(act)) && !(act.Recover? && act.ok)
    ensures ExecsOk(s')
  {
    DoneAfter(env, s.now, s.reps[r], act);
    ExecsAfter(env, s, r, act);
    QuietKeepsExecs(s, s', r, Next(env, s.now, s.reps[r], act));
  }

  lemma {:induction false} OtherKeepsExecs(env: Env, s: State, s': State, r: ReplicaId, act: Act)
    requires Acted(env, s, s', r, act) && LocalOk(s.reps[r]) && HeldOk(s) && ExecsOk(s)
    ensures ExecsOk(s')
  {
    if Settles(s.reps[r], act).Some? && SettleOk(act) {
      SettlingKeepsExecs(env, s, s', r, act);
    } else if act.Recover? && act.ok {
      MarkingKeepsExecs(env, s, s', r, act);
    } else {
      RestKeepsExecs(env, s, s', r, act);
    }
  }

  lemma {:induction false} DoKeepsExecs(env: Env, s: State, r: ReplicaId, act: Act)
    requires Enabled(env, s, Do(r, act)) && LocalOk(s.reps[r]) && TxJobsOk(s, s.reps[r])
    requires IdsOk(s) && HeldOk(s) && ExecsOk(s)
    ensures ExecsOk(After(env, s, Do(r, act)))
  {
    if act == Tick(Commit) {
      CommitKeepsExecs(env, s, r);
    } else {
      OtherKeepsExecs(env, s, AfterDo(env, s, r, act), r, act);
    }
  }
}
