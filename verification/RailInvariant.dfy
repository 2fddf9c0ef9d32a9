/** What every call on the payment rail keeps, over every run. */
module RailInvariant {
  import opened Option
  import opened Ledger
  import opened Rail

  /** An intent's own columns agree with its state. */
  ghost predicate IntentShape(i: Intent) {
    && (i.product == SINGLE <==> i.key.SingleSale?) && (i.product == STARTER <==> i.key.PlanSale?)
    && (i.state == AWAITING ==> i.active.Some?)
    && (i.state in {PENDING, EXPIRED} ==> i.active.None?)
    && (i.state == PAID <==> i.settledAt.Some?) && (i.state == PAID <==> i.note.Some?)
    && i.state != INTENT_CANCELLED
    && (i.resumedAt.Some? ==> i.state == PAID)
  }

  /** A transaction's stored instants agree with its state. */
  ghost predicate TxShape(t: Tx) {
    match t.state
    case CREATED => t.performTime.None? && t.cancelTime.None? && t.reason.None?
    case PERFORMED => t.performTime.Some? && t.cancelTime.None? && t.reason.None?
    case CANCELLED_TX => t.performTime.None? && t.cancelTime.Some? && t.reason.Some?
    case CANCELLED_AFTER_PERFORM => false
  }

  // An open transaction holds its intent; only an operator's settlement can pay it meanwhile.
  ghost predicate TxHolds(r: Rows, id: TxId)
    requires id in r.txs
  {
    var t := r.txs[id];
    && (t.state == CREATED ==>
          t.intent in r.intents && r.intents[t.intent].active == Some(id)
          && (r.intents[t.intent].state == AWAITING
              || (r.intents[t.intent].state == PAID && r.intents[t.intent].note != Some(RailNote))))
    && (t.state == PERFORMED ==>
          t.intent in r.intents && r.intents[t.intent].active == Some(id) && r.intents[t.intent].state == PAID)
    && (t.intent in r.intents ==> t.amount == r.intents[t.intent].amount)
  }

  // A held intent's holder is its own; one the rail paid was paid by that holder, then.
  ghost predicate HolderAnswers(r: Rows, ref: Ref)
    requires ref in r.intents
  {
    var i := r.intents[ref];
    && (i.active.Some? ==> i.active.value in r.txs && r.txs[i.active.value].intent == ref)
    && (i.state == AWAITING && i.active.Some? && i.active.value in r.txs ==> r.txs[i.active.value].state == CREATED)
    && (i.state == PAID && i.note == Some(RailNote) ==>
          i.active.Some? && i.active.value in r.txs && r.txs[i.active.value].state == PERFORMED
          && r.txs[i.active.value].performTime == i.settledAt)
  }

  ghost predicate Indexed(r: Rows) {
    && (forall ref :: ref in r.intents ==> r.intents[ref].key in r.index && r.index[r.intents[ref].key] == ref)
    && (forall k :: k in r.index ==> r.index[k] in r.intents && r.intents[r.index[k]].key == k)
  }

  ghost predicate RailInv(r: Rows) {
    && (forall ref :: ref in r.intents ==> IntentShape(r.intents[ref]) && HolderAnswers(r, ref))
    && (forall id :: id in r.txs ==> TxShape(r.txs[id]) && TxHolds(r, id))
    && Indexed(r)
    && r.intents.Keys <= r.minted && (forall id :: id in r.txs ==> r.txs[id].intent in r.minted)
  }

  const NO_ROWS := Rows(map[], map[], map[], {})

  lemma NoRowsHold()
    ensures RailInv(NO_ROWS)
  {
  }

  // ---- steps ---------------------------------------------------------------------------

  datatype RailStep =
    | OpenStep(q: Opening, ref: Ref)
    | CreateStep(call: CreateCall, c: Config)
    | PerformStep(id: TxId, c: Config)
    | CancelStep(id: TxId, reason: int)
    | ForceSettleStep(ref: Ref, text: string)
    | ExpireStep(refs: seq<Ref>)
    | TimeOutStep(ids: seq<TxId>, c: Config)
    | NotifyStep(ref: Ref)
    | ResumeStep(ref: Ref)
    | ForgetBuyerStep(u: User)
    | PurgeStep(doomed: set<Ref>, cutoff: int)

  // References are drawn at random: a new one was never drawn before.
  predicate Possible(r: Rows, step: RailStep) {
    step.OpenStep? ==> step.ref !in r.minted
  }

  function Move(r: Rows, step: RailStep, now: int): Rows {
    match step
    case OpenStep(q, ref) => Open(r, q, ref, now).1
    case CreateStep(call, c) => Create(r, call, now, c).1
    case PerformStep(id, c) => Perform(r, id, now, c).1
    case CancelStep(id, reason) => Cancel(r, id, reason, now).1
    case ForceSettleStep(ref, text) => ForceSettle(r, ref, text, now).1
    case ExpireStep(refs) => ExpireAll(r, refs, now).1
    case TimeOutStep(ids, c) => TimeOutAll(r, ids, now, c)
    case NotifyStep(ref) => MarkNotified(r, ref, now).1
    case ResumeStep(ref) => ClaimResume(r, ref, now).1
    case ForgetBuyerStep(u) => ForgetBuyer(r, u)
    case PurgeStep(doomed, cutoff) => Purge(r, doomed, cutoff)
  }

  lemma OpenKeeps(r: Rows, q: Opening, ref: Ref, now: int)
    requires RailInv(r) && Possible(r, OpenStep(q, ref))
    ensures RailInv(Open(r, q, ref, now).1)
  {
  }

  lemma CreateKeeps(r: Rows, call: CreateCall, now: int, c: Config)
    requires RailInv(r)
    ensures RailInv(Create(r, call, now, c).1)
  {
    hide RailInv;
    if call.id in r.txs {
      CancelKeeps(r, call.id, TIMEOUT_REASON, now);
    } else if Payable(r, call.ref, call.amount, now, c).Answer? {
      HoldKeeps(r, call, now);
    }
  }

  lemma HoldKeeps(r: Rows, call: CreateCall, now: int)
    requires RailInv(r) && call.id !in r.txs && call.ref in r.intents
    requires r.intents[call.ref].state == PENDING && r.intents[call.ref].amount == call.amount
    ensures var tx := Tx(call.ref, call.paymeTime, call.amount, CREATED, None, now, None, None);
      var (held, after) := HoldIntent(WithTx(r, call.id, tx), call.ref, call.id);
      held && RailInv(after)
  {
  }

  lemma CancelKeeps(r: Rows, id: TxId, reason: int, now: int)
    requires RailInv(r) && id in r.txs
    ensures RailInv(CancelAndRelease(r, id, reason, now))
  {
    if r.txs[id].state == CREATED {
      CancelKeepsIntents(r, id, reason, now);
      CancelKeepsTxs(r, id, reason, now);
    } else {
      StrangersCannotRelease(r, id, reason, now);
    }
  }

  lemma CancelKeepsIntents(r: Rows, id: TxId, reason: int, now: int)
    requires RailInv(r) && id in r.txs && r.txs[id].state == CREATED
    ensures var after := CancelAndRelease(r, id, reason, now);
      && (forall ref :: ref in after.intents ==> IntentShape(after.intents[ref]) && HolderAnswers(after, ref))
      && Indexed(after) && after.intents.Keys <= after.minted
  {
    var after := CancelAndRelease(r, id, reason, now);
    assert TxHolds(r, id);
    forall ref | ref in after.intents ensures IntentShape(after.intents[ref]) && HolderAnswers(after, ref) {
      assert IntentShape(r.intents[ref]) && HolderAnswers(r, ref);
    }
  }

  lemma CancelKeepsTxs(r: Rows, id: TxId, reason: int, now: int)
    requires RailInv(r) && id in r.txs && r.txs[id].state == CREATED
    ensures var after := CancelAndRelease(r, id, reason, now);
      && (forall t :: t in after.txs ==> TxShape(after.txs[t]) && TxHolds(after, t))
      && (forall t :: t in after.txs ==> after.txs[t].intent in after.minted)
  {
    hide Indexed, HolderAnswers, IntentShape;
    var after := CancelAndRelease(r, id, reason, now);
    assert TxHolds(r, id);
    forall t | t in after.txs ensures TxShape(after.txs[t]) && TxHolds(after, t) {
      assert TxShape(r.txs[t]) && TxHolds(r, t);
    }
  }

  // A cancel or a timeout for a transaction that is no longer open changes nothing.
  lemma StrangersCannotRelease(r: Rows, id: TxId, reason: int, now: int)
    requires RailInv(r) && id in r.txs && r.txs[id].state != CREATED
    ensures CancelAndRelease(r, id, reason, now) == r
  {
    if r.txs[id].intent in r.intents { assert HolderAnswers(r, r.txs[id].intent); }
  }

  lemma SettleKeeps(r: Rows, id: TxId, now: int, c: Config)
    requires RailInv(r) && id in r.txs && r.txs[id].state == CREATED
    ensures RailInv(Settle(r, id, now, c).1)
  {
    SettleKeepsIntents(r, id, now, c);
    SettleKeepsTxs(r, id, now, c);
  }

  lemma SettleKeepsIntents(r: Rows, id: TxId, now: int, c: Config)
    requires RailInv(r) && id in r.txs && r.txs[id].state == CREATED
    ensures var after := Settle(r, id, now, c).1;
      && (forall ref :: ref in after.intents ==> IntentShape(after.intents[ref]) && HolderAnswers(after, ref))
      && Indexed(after) && after.intents.Keys <= after.minted
  {
    var after := Settle(r, id, now, c).1;
    assert TxHolds(r, id);
    forall ref | ref in after.intents ensures IntentShape(after.intents[ref]) && HolderAnswers(after, ref) {
      assert IntentShape(r.intents[ref]) && HolderAnswers(r, ref);
    }
  }

  lemma SettleKeepsTxs(r: Rows, id: TxId, now: int, c: Config)
    requires RailInv(r) && id in r.txs && r.txs[id].state == CREATED
    ensures var after := Settle(r, id, now, c).1;
      && (forall t :: t in after.txs ==> TxShape(after.txs[t]) && TxHolds(after, t))
      && (forall t :: t in after.txs ==> after.txs[t].intent in after.minted)
  {
    hide Indexed, HolderAnswers, IntentShape;
    var after := Settle(r, id, now, c).1;
    assert TxHolds(r, id);
    forall t | t in after.txs ensures TxShape(after.txs[t]) && TxHolds(after, t) {
      assert TxShape(r.txs[t]) && TxHolds(r, t);
    }
  }

  lemma PerformKeeps(r: Rows, id: TxId, now: int, c: Config)
    requires RailInv(r)
    ensures RailInv(Perform(r, id, now, c).1)
  {
    hide RailInv, Settle;
    if id in r.txs && r.txs[id].state == CREATED {
      CancelKeeps(r, id, TIMEOUT_REASON, now);
      SettleKeeps(r, id, now, c);
    }
  }

  lemma ForceSettleKeeps(r: Rows, ref: Ref, text: string, now: int)
    requires RailInv(r)
    ensures RailInv(ForceSettle(r, ref, text, now).1)
  {
  }

  lemma ExpireKeeps(r: Rows, ref: Ref, now: int)
    requires RailInv(r)
    ensures RailInv(ExpireIntent(r, ref, now).1)
  {
  }

  lemma {:induction false} ExpireAllKeeps(r: Rows, refs: seq<Ref>, now: int)
    requires RailInv(r)
    ensures RailInv(ExpireAll(r, refs, now).1)
  {
    hide RailInv, ExpireIntent;
    if refs != [] {
      ExpireAllKeeps(r, refs[..|refs| - 1], now);
      ExpireKeeps(ExpireAll(r, refs[..|refs| - 1], now).1, refs[|refs| - 1], now);
    }
  }

  lemma {:induction false} TimeOutAllKeeps(r: Rows, ids: seq<TxId>, now: int, c: Config)
    requires RailInv(r)
    ensures RailInv(TimeOutAll(r, ids, now, c))
  {
    hide RailInv, CancelAndRelease;
    if ids != [] {
      TimeOutAllKeeps(r, ids[..|ids| - 1], now, c);
      var swept := TimeOutAll(r, ids[..|ids| - 1], now, c);
      if ids[|ids| - 1] in swept.txs {
        CancelKeeps(swept, ids[|ids| - 1], TIMEOUT_REASON, now);
      }
    }
  }

  // The two delivery stamps are no part of either machine.
  lemma MarkKeeps(r: Rows, ref: Ref, after: Rows)
    requires RailInv(r) && after.txs == r.txs && after.index == r.index && after.minted == r.minted
    requires after.intents.Keys == r.intents.Keys
    requires forall q :: q in r.intents && q != ref ==> after.intents[q] == r.intents[q]
    requires ref in r.intents ==>
      && after.intents[ref].(notifiedAt := None, resumedAt := None) == r.intents[ref].(notifiedAt := None, resumedAt := None)
      && (after.intents[ref].resumedAt.Some? ==> after.intents[ref].state == PAID)
    ensures RailInv(after)
  {
    forall q | q in after.intents ensures IntentShape(after.intents[q]) && HolderAnswers(after, q) {
      assert IntentShape(r.intents[q]) && HolderAnswers(r, q);
    }
    forall t | t in after.txs ensures TxShape(after.txs[t]) && TxHolds(after, t) {
      assert TxShape(r.txs[t]) && TxHolds(r, t);
    }
    assert Indexed(after);
  }

  lemma NotifyKeeps(r: Rows, ref: Ref, now: int)
    requires RailInv(r)
    ensures RailInv(MarkNotified(r, ref, now).1)
  {
    MarkKeeps(r, ref, MarkNotified(r, ref, now).1);
  }

  lemma ResumeKeeps(r: Rows, ref: Ref, now: int)
    requires RailInv(r)
    ensures RailInv(ClaimResume(r, ref, now).1)
  {
    MarkKeeps(r, ref, ClaimResume(r, ref, now).1);
  }

  lemma ForgetBuyerKeeps(r: Rows, u: User)
    requires RailInv(r)
    ensures RailInv(ForgetBuyer(r, u))
  {
    var after := ForgetBuyer(r, u);
    forall ref | ref in after.intents ensures IntentShape(after.intents[ref]) && HolderAnswers(after, ref) {
      assert IntentShape(r.intents[ref]) && HolderAnswers(r, ref);
    }
    forall t | t in after.txs ensures TxShape(after.txs[t]) && TxHolds(after, t) {
      assert TxShape(r.txs[t]) && TxHolds(r, t);
    }
    assert Indexed(after);
  }

  lemma PurgeKeeps(r: Rows, refs: set<Ref>, cutoff: int)
    requires RailInv(r)
    ensures RailInv(Purge(r, refs, cutoff))
  {
  }

  lemma MoveKeeps(r: Rows, step: RailStep, now: int)
    requires RailInv(r) && Possible(r, step)
    ensures RailInv(Move(r, step, now))
  {
    hide RailInv, Open, Create, Perform, CancelAndRelease, ForceSettle, ExpireAll, TimeOutAll;
    hide MarkNotified, ClaimResume, ForgetBuyer, Purge;
    match step
    case OpenStep(q, ref) => OpenKeeps(r, q, ref, now);
    case CreateStep(call, c) => CreateKeeps(r, call, now, c);
    case PerformStep(id, c) => PerformKeeps(r, id, now, c);
    case CancelStep(id, reason) => if id in r.txs { CancelKeeps(r, id, reason, now); }
    case ForceSettleStep(ref, text) => ForceSettleKeeps(r, ref, text, now);
    case ExpireStep(refs) => ExpireAllKeeps(r, refs, now);
    case TimeOutStep(ids, c) => TimeOutAllKeeps(r, ids, now, c);
    case NotifyStep(ref) => NotifyKeeps(r, ref, now);
    case ResumeStep(ref) => ResumeKeeps(r, ref, now);
    case ForgetBuyerStep(u) => ForgetBuyerKeeps(r, u);
    case PurgeStep(doomed, cutoff) => PurgeKeeps(r, doomed, cutoff);
  }
}
