/** The send ledger updated in place, and the worker's job over one claimed chunk. */
module BroadcastStore {
  import opened Option
  import opened Broadcast
  import opened BroadcastAccounts

  const PAUSE_CHECK_EVERY := 25

  /**
   * What one delivery attempt came to: the message went out; it was refused, perhaps after
   * leaving and perhaps before a request was ever made; or a flood reply, and it never left.
   */
  datatype Delivery =
    | Delivered
    | RefusedAs(state: RowState, left: bool)
    | Flood
  {
    predicate Valid() { RefusedAs? ==> Terminal(state) && state != SENT }
    predicate Left() { Delivered? || (RefusedAs? && left) }
    function Outcome(): RowState { if RefusedAs? then state else SENT }
  }

  /** Where a cancellation strikes, if it does. */
  datatype Cut = Never | BeforeTheCall | AfterTheCall

  /**
   * Everything the worker does not decide about one row: what others do before it and while
   * its message is out, whether a stop is noticed, the reply, a cancellation, a lost write.
   */
  datatype Moment = Moment(before: seq<Timed>, isStopped: bool, delivery: Delivery, during: seq<Timed>,
                           cut: Cut, isLost: bool)

  /** One hand-back: what others do first, whether the cancellation strikes there, whether the write is lost. */
  datatype Return = Return(before: seq<Timed>, isCut: bool, isLost: bool)

  predicate Distinct(s: seq<RowId>) {
    forall i, j :: 0 <= i < j < |s| ==> s[i] != s[j]
  }

  function Among(s: seq<RowId>): set<RowId> {
    set i | 0 <= i < |s| :: s[i]
  }

  /** How one delivery leaves the job: the row settled, every sender parked, or the job cancelled. */
  datatype Ending = Settled | Parked | Cancelled

  /**
   * What became of a row the job dealt with: settled as the reply says (or written off before
   * that), abandoned at worst if the write was lost, and counted as sent only if it left.
   */
  ghost predicate Dealt(w: World, id: RowId, moment: Moment, isSent: bool) {
    && moment.delivery != Flood && Over(w, id, moment.delivery.Outcome())
    && (!moment.isLost ==> Closed(w, id, moment.delivery.Outcome()))
    && (isSent <==> moment.delivery.Delivered?) && (isSent ==> Sends(w, id) > 0)
  }

  /** No lease sweep ran among these steps. */
  ghost predicate Unswept(steps: seq<Timed>, from: nat) {
    forall i :: from <= i < |steps| ==> !steps[i].step.Age?
  }

  /** The row is in the very state the reply stands for. */
  ghost predicate IsAsReplied(w: World, id: RowId, moment: Moment) {
    id in w.rows && match moment.delivery
      case Delivered => w.rows[id].state == SENT
      case RefusedAs(state, _) => w.rows[id].state == state
      case Flood => false
  }

  lemma RepliesStay(a: World, b: World, claimed: seq<RowId>, moments: seq<Moment>, k: nat)
    requires Lasting(a, b) && k <= |claimed| == |moments|
    requires forall m :: 0 <= m < |moments| ==> moments[m].delivery.Valid()
    ensures forall m :: 0 <= m < k && IsAsReplied(a, claimed[m], moments[m]) ==> IsAsReplied(b, claimed[m], moments[m])
  {
    forall m | 0 <= m < k && IsAsReplied(a, claimed[m], moments[m]) ensures IsAsReplied(b, claimed[m], moments[m]) {
      assert LastsFor(a, b, claimed[m], a.rows[claimed[m]].state);
    }
  }

  lemma UnsweptSplits(steps: seq<Timed>, more: seq<Timed>, from: nat)
    requires from <= |steps| && steps <= more
    ensures Unswept(more, from) <==> Unswept(steps, from) && Unswept(more, |steps|)
  {
    assert forall i :: 0 <= i < |steps| ==> more[i] == steps[i];
  }

  lemma DealtStay(a: World, b: World, claimed: seq<RowId>, moments: seq<Moment>, k: nat, sent: set<RowId>)
    requires Lasting(a, b) && k <= |claimed| == |moments|
    requires forall m :: 0 <= m < k ==> Dealt(a, claimed[m], moments[m], claimed[m] in sent)
    ensures forall m :: 0 <= m < k ==> Dealt(b, claimed[m], moments[m], claimed[m] in sent)
  {
    hide Closed, Over;
    forall m | 0 <= m < k ensures Dealt(b, claimed[m], moments[m], claimed[m] in sent) {
      assert Dealt(a, claimed[m], moments[m], claimed[m] in sent);
      assert LastsFor(a, b, claimed[m], moments[m].delivery.Outcome());
    }
  }

  lemma SentStays(a: World, b: World, id: RowId)
    requires Lasting(a, b)
    ensures Sends(a, id) <= Sends(b, id)
  {
    assert LastsFor(a, b, id, SENT);
  }

  // The k-th row is none of the earlier ones, and joins them.
  lemma SentGrows(claimed: seq<RowId>, k: nat, sent: set<RowId>)
    requires k < |claimed| && Distinct(claimed) && sent <= Among(claimed[..k])
    ensures claimed[k] !in sent && sent + {claimed[k]} <= Among(claimed[..k + 1])
    ensures forall m :: 0 <= m < k ==> claimed[m] != claimed[k]
  {
    assert forall i :: 0 <= i < k ==> claimed[..k][i] == claimed[i] && claimed[..k + 1][i] == claimed[i];
    assert claimed[..k + 1][k] == claimed[k];
  }

  /** These steps give the row up unsent, or the write that would have is lost. */
  ghost predicate HandedBack(steps: seq<Timed>, from: nat, j: JobId, id: RowId, r: Return) {
    exists i :: from <= i < |steps| && steps[i].step == if r.isLost then WriteLost(j, id) else HandBack(j, id)
  }

  lemma HandedBackStays(steps: seq<Timed>, more: seq<Timed>, from: nat, j: JobId)
    requires steps <= more
    ensures forall id, r :: HandedBack(steps, from, j, id, r) ==> HandedBack(more, from, j, id, r)
  {
    forall id, r | HandedBack(steps, from, j, id, r) ensures HandedBack(more, from, j, id, r) {
      var i :| from <= i < |steps| && steps[i].step == if r.isLost then WriteLost(j, id) else HandBack(j, id);
      assert more[i] == steps[i];
    }
  }

  lemma HandedBackSince(steps: seq<Timed>, from: nat, earlier: nat, j: JobId)
    requires earlier <= from
    ensures forall id, r :: HandedBack(steps, from, j, id, r) ==> HandedBack(steps, earlier, j, id, r)
  {
  }

  lemma AmongShrinks(s: seq<RowId>, k: nat)
    requires k < |s| && Distinct(s)
    ensures s[k] in Among(s[k..]) && Among(s[k + 1..]) == Among(s[k..]) - {s[k]}
  {
    assert s[k..][0] == s[k];
    assert forall i :: k < i < |s| ==> s[k..][i - k] == s[i] && s[k + 1..][i - k - 1] == s[i];
  }

  lemma AmongGrows(s: seq<RowId>, id: RowId)
    requires id !in Among(s) && Distinct(s)
    ensures Among(s + [id]) == Among(s) + {id} && Distinct(s + [id])
  {
    assert forall i :: 0 <= i < |s| ==> s[i] in Among(s) && (s + [id])[i] == s[i];
    assert (s + [id])[|s|] == id;
  }

  /**
   * The table every worker shares, what each running chunk holds in memory, and what has left
   * for the customers. `trace` is everything done to them since the campaign was fresh.
   */
  class SendLedger {
    var rows: Rows
    var jobs: map<JobId, Job>
    var sends: map<RowId, nat>
    var owners: map<RowId, int>
    var counters: Tally
    ghost var trace: seq<Timed>
    ghost const origin: World

    ghost function Now(): World
      reads this
    {
      World(rows, jobs, sends, owners)
    }

    /** The ledger is where its trace leads, each step of it one the worker's code lets itself take. */
    ghost predicate Valid()
      reads this
    {
      Fresh(origin) && Reached(origin, trace) == Some(Now())
    }

    constructor (initial: Rows)
      requires forall id :: id in initial ==> initial[id].user.Some? && initial[id].state in {PENDING, SKIPPED_BLOCKED}
      requires forall id, other :: id in initial && other in initial && id != other ==> initial[id].user != initial[other].user
      ensures Valid() && Now() == World(initial, map[], map[], map id | id in initial :: initial[id].user.value) && trace == []
    {
      rows, jobs, sends, counters := initial, map[], map[], CountRows(initial);
      owners := map id | id in initial :: initial[id].user.value;
      trace, origin := [], World(initial, map[], map[], map id | id in initial :: initial[id].user.value);
    }

    /**
     * Whatever the workers, the sweeps, erasures and late pages went through to get here: an account
     * got one message at most for the row it started with, and one more at most for each time a
     * blanked row let it in again; if it was never forgotten, one in all.
     */
    lemma NobodyTwice(u: int, id: RowId)
      requires Valid()
      ensures Messages(origin, trace, u) <= 1 + Readmissions(origin, trace, u)
      ensures (forall i :: 0 <= i < |trace| ==> trace[i].step != Forget(u)) ==> Messages(origin, trace, u) <= 1
      ensures |SentTo(Now(), u) * origin.rows.Keys| <= 1
      ensures Sends(Now(), id) <= 1 && (id in rows && rows[id].state == SENT ==> Sends(Now(), id) == 1)
    {
      hide Fresh, Reached, Messages, Readmissions, Erasures, SentTo, RowsOf;
      FreshCampaignIsSafe(origin, trace, id);
      OneMessagePerAccount(origin, trace, u);
      if forall i :: 0 <= i < |trace| ==> trace[i].step != Forget(u) { UnforgottenGetOne(origin, trace, u); }
    }

    method Act(step: Step, at: int)
      requires Valid() && Can(Now(), step)
      modifies this`rows, this`jobs, this`sends, this`owners, this`trace
      ensures Valid() && Now() == Do(old(Now()), step, at) && trace == old(trace) + [Timed(at, step)]
      ensures Lasting(old(Now()), Now())
    {
      hide Fresh, Reached, Lasting, WorldInv;
      OneStepMore(origin, trace, Now(), step, at);
      var w := Do(World(rows, jobs, sends, owners), step, at);
      rows, jobs, sends, owners := w.rows, w.jobs, w.sends, w.owners;
      trace := trace + [Timed(at, step)];
    }

    /** Whatever others do meanwhile, of what their own code lets them do. */
    method Meanwhile(j: JobId, script: seq<Timed>)
      requires Valid() && j in jobs
      modifies this`rows, this`jobs, this`sends, this`owners, this`trace
      ensures Valid() && old(trace) <= trace && j in jobs && jobs[j] == old(jobs)[j]
      ensures Lasting(old(Now()), Now()) && (script == [] ==> Now() == old(Now()))
      ensures Unswept(trace, |old(trace)|) ==>
        forall id :: id in jobs[j].mine && IsSending(old(Now()), id) ==> IsSending(Now(), id)
    {
      hide Do, Can, Fresh, Reached, Lasting, WorldInv, IsSending;
      LastsAtRest(Now());
      var k := 0;
      while k < |script|
        invariant k <= |script| && Valid() && old(trace) <= trace && j in jobs && jobs[j] == old(jobs)[j]
        invariant Lasting(old(Now()), Now()) && (k == 0 ==> Now() == old(Now()))
        invariant Unswept(trace, |old(trace)|) ==>
          forall id :: id in jobs[j].mine && IsSending(old(Now()), id) ==> IsSending(Now(), id)
      {
        var w, step, at := World(rows, jobs, sends, owners), script[k].step, script[k].now;
        if Can(w, step) && Actor(step) != Some(j) {
          ghost var known := trace;
          FreshCampaignIsSafe(origin, trace, 0);
          OthersLeaveAJob(w, step, at, j);
          if !step.Age? { OthersLeaveSending(w, step, at, j); }
          Act(step, at);
          UnsweptSplits(known, trace, |old(trace)|);
          assert trace[|known|].step == step;
          LastingTransitive(old(Now()), w, Now());
        }
        k := k + 1;
      }
    }

    /** Claim one row, if it is still pending when the update runs. */
    method ClaimOne(j: JobId, id: RowId, at: int) returns (won: bool)
      requires Valid() && j in jobs && jobs[j].at == at
      modifies this`rows, this`jobs, this`trace
      ensures Valid() && Now() == Do(old(Now()), Claim(j, id), at) && trace == old(trace) + [Timed(at, Claim(j, id))]
      ensures (won, rows) == ClaimRow(old(rows), id, at) && Lasting(old(Now()), Now())
      ensures j in jobs && jobs[j] == old(jobs)[j].(mine := old(jobs)[j].mine + if won then {id} else {})
      ensures won ==> id !in old(jobs)[j].mine
    {
      hide Fresh, Reached, Lasting, WorldInv;
      FreshCampaignIsSafe(origin, trace, id);
      OneStepMore(origin, trace, Now(), Claim(j, id), at);
      won := id in rows && rows[id].state == PENDING;
      if won {
        PendingIsUnowned(Now(), j, id);
        rows := rows[id := rows[id].(state := SENDING, attempts := rows[id].attempts + 1, updatedAt := at)];
        jobs := jobs[j := jobs[j].(mine := jobs[j].mine + {id})];
      }
      trace := trace + [Timed(at, Claim(j, id))];
    }

    /** The one call that reaches the customer; the job remembers that it may have. */
    method Send(j: JobId, id: RowId, at: int)
      requires Valid() && Owns(Now(), j, id) && id !in jobs[j].out
      modifies this`jobs, this`sends, this`owners, this`trace
      ensures Valid() && Now() == Do(old(Now()), Transmit(j, id), at)
      ensures trace == old(trace) + [Timed(at, Transmit(j, id))]
      ensures j in jobs && jobs[j] == old(jobs)[j].(out := old(jobs)[j].out + {id})
      ensures Lasting(old(Now()), Now()) && Sends(Now(), id) > 0
    {
      hide Fresh, Reached, Lasting, WorldInv;
      OneStepMore(origin, trace, Now(), Transmit(j, id), at);
      jobs := jobs[j := jobs[j].(out := jobs[j].out + {id})];
      sends := sends[id := (if id in sends then sends[id] else 0) + 1];
      trace := trace + [Timed(at, Transmit(j, id))];
    }

    method LetGo(j: JobId, id: RowId)
      requires j in jobs
      modifies this`jobs
      ensures jobs == Dropped(old(Now()), j, id)
    {
      jobs := jobs[j := jobs[j].(mine := jobs[j].mine - {id}, out := jobs[j].out - {id})];
    }

    /** Close one row. A lost write leaves it sending, and the job moves on. */
    method Settle(j: JobId, id: RowId, state: RowState, at: int, isLost: bool)
      requires Valid() && Can(Now(), Close(j, id, state)) && jobs[j].at == at
      modifies this`rows, this`jobs, this`trace
      ensures var step := if isLost then WriteLost(j, id) else Close(j, id, state);
        Valid() && Now() == Do(old(Now()), step, at) && trace == old(trace) + [Timed(at, step)]
      ensures j in jobs && jobs[j] == old(jobs)[j].(mine := old(jobs)[j].mine - {id}, out := old(jobs)[j].out - {id})
      ensures Lasting(old(Now()), Now()) && Over(Now(), id, state) && (!isLost ==> Closed(Now(), id, state))
      ensures !isLost && IsSending(old(Now()), id) ==> id in rows && rows[id].state == state
      ensures forall other :: other != id && IsSending(old(Now()), other) ==> IsSending(Now(), other)
    {
      hide Fresh, Reached, Lasting, WorldInv;
      FreshCampaignIsSafe(origin, trace, id);
      LettingGoEndsIt(Now(), j, id, state, at);
      OneStepMore(origin, trace, Now(), if isLost then WriteLost(j, id) else Close(j, id, state), at);
      if !isLost && id in rows && rows[id].state == SENDING {
        rows := rows[id := rows[id].(state := state, settledAt := Some(at), updatedAt := at)];
      }
      LetGo(j, id);
      trace := trace + [Timed(at, if isLost then WriteLost(j, id) else Close(j, id, state))];
    }

    /** Hand one row back, unsent. */
    method Release(j: JobId, id: RowId, at: int, isLost: bool)
      requires Valid() && Can(Now(), HandBack(j, id)) && jobs[j].at == at
      modifies this`rows, this`jobs, this`trace
      ensures var step := if isLost then WriteLost(j, id) else HandBack(j, id);
        Valid() && Now() == Do(old(Now()), step, at) && trace == old(trace) + [Timed(at, step)]
      ensures j in jobs && jobs[j] == old(jobs)[j].(mine := old(jobs)[j].mine - {id}, out := old(jobs)[j].out - {id})
      ensures Lasting(old(Now()), Now())
    {
      hide Fresh, Reached, Lasting, WorldInv;
      OneStepMore(origin, trace, Now(), if isLost then WriteLost(j, id) else HandBack(j, id), at);
      if !isLost && id in rows && rows[id].state == SENDING {
        rows := rows[id := rows[id].(state := PENDING, updatedAt := at)];
      }
      LetGo(j, id);
      trace := trace + [Timed(at, if isLost then WriteLost(j, id) else HandBack(j, id))];
    }

    /** The job is gone, in the middle of whatever it was doing; its rows stay as they are. */
    method Die(j: JobId, at: int)
      requires Valid() && j in jobs
      modifies this`jobs, this`trace
      ensures Valid() && Now() == Do(old(Now()), Kill(j), at) && trace == old(trace) + [Timed(at, Kill(j))]
      ensures Lasting(old(Now()), Now()) && j !in jobs
    {
      hide Fresh, Reached, Lasting, WorldInv;
      OneStepMore(origin, trace, Now(), Kill(j), at);
      jobs := jobs - {j};
      trace := trace + [Timed(at, Kill(j))];
    }

    /**
     * Claim what is still pending of the candidates read a moment ago. Others act before each
     * update; each row's own update decides, so a row taken meanwhile is absent from the answer.
     */
    method ClaimChunk(j: JobId, candidates: seq<RowId>, at: int, others: seq<seq<Timed>>) returns (claimed: seq<RowId>)
      requires Valid() && j in jobs && jobs[j] == Job(at, {}, {}) && |others| == |candidates|
      modifies this`rows, this`jobs, this`sends, this`owners, this`trace
      ensures Valid() && old(trace) <= trace && Lasting(old(Now()), Now())
      ensures j in jobs && jobs[j] == Job(at, Among(claimed), {}) && Distinct(claimed)
      ensures |claimed| <= |candidates| && forall id :: id in claimed ==> id in candidates
      ensures Unswept(trace, |old(trace)|) ==> forall id :: id in claimed ==> IsSending(Now(), id)
      ensures (forall k :: 0 <= k < |others| ==> others[k] == []) ==>
        forall id :: id in claimed <==> id in candidates && id in old(rows) && old(rows)[id].state == PENDING
    {
      hide Do, Can, Fresh, Reached, Lasting;
      LastsAtRest(Now());
      claimed := [];
      var k := 0;
      ghost var alone := forall i :: 0 <= i < |others| ==> others[i] == [];
      while k < |candidates|
        invariant k <= |candidates| && Valid() && old(trace) <= trace && Lasting(old(Now()), Now())
        invariant j in jobs && jobs[j] == Job(at, Among(claimed), {}) && Distinct(claimed)
        invariant |claimed| <= k && forall id :: id in claimed ==> id in candidates[..k]
        invariant Unswept(trace, |old(trace)|) ==> forall id :: id in claimed ==> IsSending(Now(), id)
        invariant alone ==> rows.Keys == old(rows).Keys
        invariant alone ==> forall id ::
          id in claimed <==> id in candidates[..k] && id in old(rows) && old(rows)[id].state == PENDING
        invariant alone ==> forall id :: id in rows && id !in claimed ==> rows[id] == old(rows)[id]
        invariant alone ==> forall id :: id in claimed ==> rows[id].state == SENDING
      {
        var id := candidates[k];
        assert candidates[..k + 1] == candidates[..k] + [id];
        ghost var earlier, past := Now(), trace;
        Meanwhile(j, others[k]);
        ghost var before, seen := Now(), trace;
        LastingTransitive(old(Now()), earlier, before);
        var won := ClaimOne(j, id, at);
        UnsweptSplits(seen, trace, |old(trace)|);
        UnsweptSplits(past, seen, |old(trace)|);
        LastingTransitive(old(Now()), before, Now());
        if won {
          AmongGrows(claimed, id);
          claimed := claimed + [id];
        }
        k := k + 1;
      }
      assert candidates[..k] == candidates;
    }

    /** Hand back the claimed rows from position `from` on; this job sent none of them. */
    method ReleaseRest(j: JobId, claimed: seq<RowId>, from: nat, at: int, handBacks: seq<Return>)
      returns (cancelled: bool)
      requires Valid() && from <= |claimed| == |handBacks| && Distinct(claimed)
      requires j in jobs && jobs[j] == Job(at, Among(claimed[from..]), {})
      modifies this`rows, this`jobs, this`sends, this`owners, this`trace
      ensures Valid() && old(trace) <= trace && Lasting(old(Now()), Now())
      ensures if cancelled then j !in jobs else j in jobs && jobs[j] == Job(at, {}, {})
      ensures !cancelled ==>
        forall m :: from <= m < |claimed| ==> HandedBack(trace, |old(trace)|, j, claimed[m], handBacks[m])
    {
      hide Do, Fresh, Reached, Lasting;
      LastsAtRest(Now());
      var k := from;
      while k < |claimed|
        invariant from <= k <= |claimed| && Valid() && old(trace) <= trace && Lasting(old(Now()), Now())
        invariant j in jobs && jobs[j] == Job(at, Among(claimed[k..]), {})
        invariant forall m :: from <= m < k ==> HandedBack(trace, |old(trace)|, j, claimed[m], handBacks[m])
      {
        AmongShrinks(claimed, k);
        ghost var earlier, known := Now(), trace;
        Meanwhile(j, handBacks[k].before);
        LastingTransitive(old(Now()), earlier, Now());
        if handBacks[k].isCut {
          ghost var alive := Now();
          Die(j, at);
          LastingTransitive(old(Now()), alive, Now());
          return true;
        }
        ghost var before := Now();
        Release(j, claimed[k], at, handBacks[k].isLost);
        LastingTransitive(old(Now()), before, Now());
        HandedBackStays(known, trace, |old(trace)|, j);
        assert trace[|trace| - 1].step
            == if handBacks[k].isLost then WriteLost(j, claimed[k]) else HandBack(j, claimed[k]);
        k := k + 1;
      }
      cancelled := false;
    }

    /** One customer: send, then settle. Others act while the message is out. */
    method Deliver(j: JobId, id: RowId, at: int, moment: Moment) returns (end: Ending)
      requires Valid() && moment.delivery.Valid()
      requires j in jobs && jobs[j].at == at && id in jobs[j].mine && jobs[j].out == {}
      modifies this`rows, this`jobs, this`sends, this`owners, this`trace
      ensures Valid() && old(trace) <= trace && Lasting(old(Now()), Now())
      ensures end == Cancelled ==> j !in jobs
      ensures end == Parked ==> moment.delivery == Flood && j in jobs && jobs[j] == old(jobs)[j]
      ensures end == Settled ==> j in jobs && jobs[j] == old(jobs)[j].(mine := old(jobs)[j].mine - {id})
      ensures end == Settled ==> Dealt(Now(), id, moment, moment.delivery.Delivered?)
      ensures Unswept(trace, |old(trace)|) && end == Settled && !moment.isLost && IsSending(old(Now()), id) ==>
        IsAsReplied(Now(), id, moment)
      ensures Unswept(trace, |old(trace)|) && end != Cancelled ==>
        forall other :: other in old(jobs)[j].mine - {id} && IsSending(old(Now()), other) ==> IsSending(Now(), other)
    {
      hide Do, Fresh, Reached, Lasting, Closed, Over;
      LastsAtRest(Now());
      if moment.cut == BeforeTheCall {
        Die(j, at);
        return Cancelled;
      }
      if moment.delivery == Flood {
        return Parked;
      }
      if moment.delivery.Left() {
        Send(j, id, at);
      }
      ghost var out := Now();
      ghost var sent := trace;
      Meanwhile(j, moment.during);
      ghost var answered := Now();
      ghost var heard := trace;
      LastingTransitive(old(Now()), out, answered);
      SentStays(out, answered, id);
      if moment.cut == AfterTheCall {
        Die(j, at);
        end := Cancelled;
      } else {
        Settle(j, id, moment.delivery.Outcome(), at, moment.isLost);
        end := Settled;
      }
      LastingTransitive(old(Now()), answered, Now());
      SentStays(answered, Now(), id);
      UnsweptSplits(heard, trace, |old(trace)|);
      UnsweptSplits(sent, heard, |old(trace)|);
    }

    /** One turn of the loop: others act, a stop may be noticed, and if none is the row is delivered. */
    method TakeTurn(j: JobId, k: nat, id: RowId, at: int, moment: Moment) returns (end: Ending)
      requires Valid() && moment.delivery.Valid()
      requires j in jobs && jobs[j].at == at && id in jobs[j].mine && jobs[j].out == {}
      modifies this`rows, this`jobs, this`sends, this`owners, this`trace
      ensures Valid() && old(trace) <= trace && Lasting(old(Now()), Now())
      ensures end == Cancelled ==> j !in jobs
      ensures end == Parked ==> j in jobs && jobs[j] == old(jobs)[j]
      ensures end == Parked ==> moment.delivery == Flood || (k > 0 && k % PAUSE_CHECK_EVERY == 0 && moment.isStopped)
      ensures end == Settled ==> j in jobs && jobs[j] == old(jobs)[j].(mine := old(jobs)[j].mine - {id})
      ensures end == Settled ==> Dealt(Now(), id, moment, moment.delivery.Delivered?)
      ensures Unswept(trace, |old(trace)|) && end == Settled && !moment.isLost && IsSending(old(Now()), id) ==>
        IsAsReplied(Now(), id, moment)
      ensures Unswept(trace, |old(trace)|) && end != Cancelled ==>
        forall other :: other in old(jobs)[j].mine - {id} && IsSending(old(Now()), other) ==> IsSending(Now(), other)
    {
      hide Do, Fresh, Reached, Lasting, Dealt, IsAsReplied, IsSending, Unswept;
      Meanwhile(j, moment.before);
      ghost var found, seen := Now(), trace;
      if k > 0 && k % PAUSE_CHECK_EVERY == 0 && moment.isStopped {
        return Parked;
      }
      end := Deliver(j, id, at, moment);
      LastingTransitive(old(Now()), found, Now());
      UnsweptSplits(seen, trace, |old(trace)|);
    }

    /**
     * Deliver to every claimed row, settling each as it lands. A stop noticed between messages,
     * or a flood reply, hands back the rest; a cancellation ends the job where it stands. Others
     * act throughout, and writes may be lost. Every step is one the worker's code lets itself
     * take in the world it finds.
     */
    method RunChunk(j: JobId, claimed: seq<RowId>, at: int, moments: seq<Moment>, handBacks: seq<Return>)
      returns (sent: set<RowId>, reached: nat, cancelled: bool)
      requires Valid() && |moments| == |handBacks| == |claimed| && Distinct(claimed)
      requires j in jobs && jobs[j] == Job(at, Among(claimed), {})
      requires forall m :: 0 <= m < |moments| ==> moments[m].delivery.Valid()
      modifies this`rows, this`jobs, this`sends, this`owners, this`trace
      ensures Valid() && old(trace) <= trace && Lasting(old(Now()), Now())
      ensures if cancelled then j !in jobs else j in jobs && jobs[j] == Job(at, {}, {})
      ensures reached <= |claimed| && sent <= Among(claimed[..reached])
      ensures forall m :: 0 <= m < reached ==> Dealt(Now(), claimed[m], moments[m], claimed[m] in sent)
      ensures Unswept(trace, |old(trace)|) && (forall id :: id in claimed ==> IsSending(old(Now()), id)) ==>
        forall m :: 0 <= m < reached && !moments[m].isLost ==> IsAsReplied(Now(), claimed[m], moments[m])
      ensures !cancelled && reached < |claimed| ==>
        || moments[reached].delivery == Flood
        || (reached > 0 && reached % PAUSE_CHECK_EVERY == 0 && moments[reached].isStopped)
      ensures !cancelled ==>
        forall m :: reached <= m < |claimed| ==> HandedBack(trace, |old(trace)|, j, claimed[m], handBacks[m])
    {
      hide Do, Fresh, Reached, Lasting, Dealt, HandedBack, IsAsReplied, IsSending, Unswept;
      LastsAtRest(Now());
      ghost var allSending := forall id :: id in claimed ==> IsSending(Now(), id);
      UnsweptSplits(trace, trace, |trace|);
      sent := {};
      var k := 0;
      assert claimed[0..] == claimed;
      while k < |claimed|
        invariant k <= |claimed| && Valid() && old(trace) <= trace && Lasting(old(Now()), Now())
        invariant j in jobs && jobs[j] == Job(at, Among(claimed[k..]), {})
        invariant sent <= Among(claimed[..k])
        invariant forall m :: 0 <= m < k ==> Dealt(Now(), claimed[m], moments[m], claimed[m] in sent)
        invariant Unswept(trace, |old(trace)|) && allSending ==>
          && (forall id :: id in Among(claimed[k..]) ==> IsSending(Now(), id))
          && (forall m :: 0 <= m < k && !moments[m].isLost ==> IsAsReplied(Now(), claimed[m], moments[m]))
      {
        AmongShrinks(claimed, k);
        ghost var start, past := Now(), trace;
        var end := TakeTurn(j, k, claimed[k], at, moments[k]);
        ghost var over := Now();
        LastingTransitive(old(Now()), start, over);
        DealtStay(start, over, claimed, moments, k, sent);
        RepliesStay(start, over, claimed, moments, k);
        UnsweptSplits(past, trace, |old(trace)|);
        if end == Parked {
          ghost var known := trace;
          cancelled := ReleaseRest(j, claimed, k, at, handBacks);
          LastingTransitive(old(Now()), over, Now());
          DealtStay(over, Now(), claimed, moments, k, sent);
          RepliesStay(over, Now(), claimed, moments, k);
          UnsweptSplits(known, trace, |old(trace)|);
          HandedBackSince(trace, |known|, |old(trace)|, j);
          return sent, k, cancelled;
        }
        if end == Cancelled {
          return sent, k, true;
        }
        SentGrows(claimed, k, sent);
        if moments[k].delivery == Delivered {
          sent := sent + {claimed[k]};
        }
        k := k + 1;
      }
      reached, cancelled := k, false;
    }

    /** A whole job, from its start to its end or its cancellation. */
    method SendChunk(j: JobId, candidates: seq<RowId>, at: int, others: seq<seq<Timed>>, moments: seq<Moment>,
                     handBacks: seq<Return>)
      returns (claimed: seq<RowId>, sent: set<RowId>, reached: nat, cancelled: bool)
      requires Valid() && j !in jobs && |others| == |moments| == |handBacks| == |candidates|
      requires forall m :: 0 <= m < |moments| ==> moments[m].delivery.Valid()
      modifies this`rows, this`jobs, this`sends, this`owners, this`trace
      ensures Valid() && old(trace) <= trace && Lasting(old(Now()), Now()) && j !in jobs
      ensures reached <= |claimed| <= |candidates| && Distinct(claimed)
      ensures forall id :: id in claimed ==> id in candidates
      ensures forall m :: 0 <= m < reached ==> Dealt(Now(), claimed[m], moments[m], claimed[m] in sent)
      ensures Unswept(trace, |old(trace)|) ==>
        forall m :: 0 <= m < reached && !moments[m].isLost ==> IsAsReplied(Now(), claimed[m], moments[m])
      ensures !cancelled ==>
        forall m :: reached <= m < |claimed| ==> HandedBack(trace, |old(trace)|, j, claimed[m], handBacks[m])
    {
      hide Do, Fresh, Reached, Lasting, Dealt, HandedBack, IsAsReplied, IsSending, Unswept;
      Begin(j, at);
      ghost var begun, first := Now(), trace;
      claimed := ClaimChunk(j, candidates, at, others);
      ghost var held := Now();
      ghost var past := trace;
      LastingTransitive(old(Now()), begun, held);
      sent, reached, cancelled := RunChunk(j, claimed, at, moments[..|claimed|], handBacks[..|claimed|]);
      ghost var ran, known := Now(), trace;
      LastingTransitive(old(Now()), held, ran);
      HandedBackSince(trace, |past|, |old(trace)|, j);
      LastsAtRest(ran);
      if !cancelled {
        Die(j, at);
      }
      LastingTransitive(old(Now()), ran, Now());
      DealtStay(ran, Now(), claimed, moments[..|claimed|], reached, sent);
      RepliesStay(ran, Now(), claimed, moments[..|claimed|], reached);
      UnsweptSplits(known, trace, |old(trace)|);
      UnsweptSplits(past, known, |old(trace)|);
      UnsweptSplits(first, past, |old(trace)|);
      HandedBackStays(known, trace, |old(trace)|, j);
    }

    method Begin(j: JobId, at: int)
      requires Valid() && j !in jobs
      modifies this`jobs, this`trace
      ensures Valid() && Now() == Do(old(Now()), Start(j), at) && trace == old(trace) + [Timed(at, Start(j))]
      ensures j in jobs && jobs[j] == Job(at, {}, {}) && Lasting(old(Now()), Now())
    {
      hide Fresh, Reached, Lasting, WorldInv;
      OneStepMore(origin, trace, Now(), Start(j), at);
      jobs := jobs[j := Job(at, {}, {})];
      trace := trace + [Timed(at, Start(j))];
    }

    // The bulk update itself.
    method WriteOff(olderThan: int, at: int) returns (aged: nat)
      modifies this`rows
      ensures rows == AgeRows(old(rows), olderThan, at)
      ensures aged == |set id | id in old(rows) && Abandoned(old(rows)[id], olderThan)|
    {
      var doomed := set id | id in rows && Abandoned(rows[id], olderThan);
      var left := doomed;
      var before := rows;
      while left != {}
        invariant left <= doomed && rows.Keys == before.Keys
        invariant forall id :: id in rows ==>
          rows[id] == if id in doomed - left then AgeRows(before, olderThan, at)[id] else before[id]
        decreases |left|
      {
        var id :| id in left;
        rows := rows[id := rows[id].(state := UNKNOWN, settledAt := Some(at), updatedAt := at)];
        left := left - {id};
      }
      assert doomed - left == doomed;
      assert rows.Keys == AgeRows(before, olderThan, at).Keys;
      assert forall id :: id in rows ==> rows[id] == AgeRows(before, olderThan, at)[id];
      aged := |doomed|;
    }

    /** Write off what dead jobs left behind; the row count is a report. */
    method AgeStale(lease: int, at: int) returns (aged: nat)
      requires Valid()
      modifies this`rows, this`trace
      ensures Valid() && Now() == Do(old(Now()), Age(lease), at) && trace == old(trace) + [Timed(at, Age(lease))]
      ensures aged == |set id | id in old(rows) && Abandoned(old(rows)[id], at - lease)|
    {
      hide Fresh, Reached, Lasting, WorldInv;
      OneStepMore(origin, trace, Now(), Age(lease), at);
      aged := WriteOff(at - lease, at);
      trace := trace + [Timed(at, Age(lease))];
    }

    /** Recount the ledger and copy it onto the campaign. */
    method RollUp() returns (t: Tally)
      modifies this`counters
      ensures t == CountRows(rows) == counters
      ensures t.total == t.pending + t.sending + t.sent + t.failed + t.skipped + t.undeliverable + t.unknown
    {
      hide CountRows;
      TallyPartitions(rows);
      t := CountRows(rows);
      counters := t;
    }
  }
}
