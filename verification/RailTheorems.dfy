/** Exclusion, absorbing states, replay, expiry and the resume latch on the payment rail. */
module RailTheorems {
  import opened Option
  import opened Keys
  import opened Periods
  import opened Ledger
  import opened Rail
  import opened RailInvariant

  // ---- exclusion -------------------------------------------------------------------------

  ghost predicate Carries(r: Rows, id: TxId, ref: Ref, state: TxState) {
    id in r.txs && r.txs[id].intent == ref && r.txs[id].state == state
  }

  /**
   * An intent has at most one live-or-paid transaction: one open or one performed, never
   * both and never two, however many cancelled attempts came before.
   */
  lemma OneChargePerIntent(r: Rows, a: TxId, b: TxId, ref: Ref, s: TxState, t: TxState)
    requires RailInv(r) && s in {CREATED, PERFORMED} && t in {CREATED, PERFORMED}
    requires Carries(r, a, ref, s) && Carries(r, b, ref, t)
    ensures a == b
  {
    assert TxHolds(r, a) && TxHolds(r, b);
  }

  /** An intent is awaiting exactly when an open transaction carries it and it is not paid. */
  lemma AwaitingIffCarried(r: Rows, ref: Ref)
    requires RailInv(r) && ref in r.intents
    ensures r.intents[ref].state == AWAITING
       <==> (exists id :: Carries(r, id, ref, CREATED)) && r.intents[ref].state != PAID
    ensures r.intents[ref].state == AWAITING ==> Carries(r, r.intents[ref].active.value, ref, CREATED)
  {
    assert IntentShape(r.intents[ref]) && HolderAnswers(r, ref);
    if r.intents[ref].state == AWAITING {
      assert Carries(r, r.intents[ref].active.value, ref, CREATED);
    }
    forall id | Carries(r, id, ref, CREATED) ensures r.intents[ref].state in {AWAITING, PAID} {
      assert TxHolds(r, id);
    }
  }

  /**
   * The exception to "an open transaction means an awaiting intent": an operator may settle
   * an awaiting intent, which leaves the hold, and the open transaction, in place.
   */
  lemma OperatorPaysUnderAHold(r: Rows, ref: Ref, text: string, now: int)
    requires RailInv(r) && ref in r.intents && r.intents[ref].state == AWAITING && r.intents[ref].user.Some?
    ensures var (reply, after, sale) := ForceSettle(r, ref, text, now);
      && reply.Answer? && sale.Some? && after.intents[ref].state == PAID
      && Carries(after, r.intents[ref].active.value, ref, CREATED)
  {
    AwaitingIffCarried(r, ref);
  }

  /**
   * A quote is answered exactly when a create for a new transaction would be, which is while the payment
   * is pending, its buyer known, its window open, and both name this merchant and this amount.
   */
  lemma QuoteForetellsCreate(r: Rows, q: CreateCall, now: int, c: Config)
    requires q.id !in r.txs
    ensures Payable(r, q.ref, q.amount, now, c).Answer? <==> Create(r, q, now, c).0.Answer?
    ensures Create(r, q, now, c).0.Answer? <==>
      && q.ref in r.intents
      && var i := r.intents[q.ref];
         i.user.Some? && i.merchant == c.merchant && i.state == PENDING && now < i.validUntil && i.amount == q.amount
    ensures Payable(r, q.ref, q.amount, now, c).Answer? ==>
      && Create(r, q, now, c).1.intents[q.ref].state == AWAITING
      && Create(r, q, now, c).1.intents[q.ref].active == Some(q.id)
  {
  }

  // ---- growth: what no later step can take back ---------------------------------------------

  ghost predicate TxGrows(a: Tx, b: Tx) {
    && b.(state := a.state, reason := a.reason, performTime := a.performTime, cancelTime := a.cancelTime) == a
    && (a.state != CREATED ==> b == a)
  }

  ghost predicate IntentGrows(a: Intent, b: Intent) {
    && b.key == a.key && b.product == a.product && b.amount == a.amount && b.songs == a.songs && b.days == a.days
    && b.merchant == a.merchant && b.validUntil == a.validUntil && b.createdAt == a.createdAt
    && ((b.user == a.user && b.resumeOrder == a.resumeOrder) || (b.user.None? && b.resumeOrder.None?))
    && (a.user.None? ==> b.user.None?)
    && (a.state == PAID ==> b.state == PAID && b.settledAt == a.settledAt && b.note == a.note && b.active == a.active)
    && (a.state in {EXPIRED, INTENT_CANCELLED} ==> b.state == a.state)
    && (a.resumedAt.Some? ==> b.resumedAt == a.resumedAt) && (a.notifiedAt.Some? ==> b.notifiedAt == a.notifiedAt)
  }

  ghost predicate Grows(a: Rows, b: Rows) {
    && a.minted <= b.minted
    && (forall id :: id in a.txs ==> id in b.txs && TxGrows(a.txs[id], b.txs[id]))
    && (forall ref :: ref in a.intents ==>
          if ref in b.intents then IntentGrows(a.intents[ref], b.intents[ref]) else a.intents[ref].state != PAID)
    && (forall ref :: ref in a.minted && ref in b.intents ==> ref in a.intents)
  }

  lemma GrowsReflexive(r: Rows)
    ensures Grows(r, r)
  {
  }

  lemma GrowsTransitive(a: Rows, b: Rows, c: Rows)
    requires RailInv(a) && Grows(a, b) && Grows(b, c)
    ensures Grows(a, c)
  {
    forall ref | ref in a.intents
      ensures if ref in c.intents then IntentGrows(a.intents[ref], c.intents[ref]) else a.intents[ref].state != PAID
    {
      assert ref in a.minted;
    }
  }

  // One row of each table at most is touched by an elementary step.
  lemma IntentUpdateGrows(r: Rows, ref: Ref, i: Intent)
    requires ref in r.intents && IntentGrows(r.intents[ref], i)
    ensures Grows(r, WithIntent(r, ref, i))
  {
  }

  lemma ReleaseGrows(r: Rows, id: TxId, reason: int, now: int)
    requires id in r.txs
    ensures Grows(r, CancelAndRelease(r, id, reason, now))
  {
  }

  lemma {:induction false} ExpireAllGrows(r: Rows, refs: seq<Ref>, now: int)
    requires RailInv(r)
    ensures Grows(r, ExpireAll(r, refs, now).1)
  {
    hide RailInv, ExpireIntent, Grows;
    GrowsReflexive(r);
    if refs != [] {
      ExpireAllGrows(r, refs[..|refs| - 1], now);
      var swept := ExpireAll(r, refs[..|refs| - 1], now).1;
      ExpireGrows(swept, refs[|refs| - 1], now);
      GrowsTransitive(r, swept, ExpireIntent(swept, refs[|refs| - 1], now).1);
    }
  }

  lemma ExpireGrows(r: Rows, ref: Ref, now: int)
    ensures Grows(r, ExpireIntent(r, ref, now).1)
  {
    hide Grows;
    GrowsReflexive(r);
    if ExpireIntent(r, ref, now).0 {
      IntentUpdateGrows(r, ref, r.intents[ref].(state := EXPIRED));
    }
  }

  lemma {:induction false} TimeOutAllGrows(r: Rows, ids: seq<TxId>, now: int, c: Config)
    requires RailInv(r)
    ensures Grows(r, TimeOutAll(r, ids, now, c))
  {
    hide RailInv, CancelAndRelease, Grows;
    GrowsReflexive(r);
    if ids != [] {
      TimeOutAllGrows(r, ids[..|ids| - 1], now, c);
      TimeOutAllKeeps(r, ids[..|ids| - 1], now, c);
      var swept := TimeOutAll(r, ids[..|ids| - 1], now, c);
      var id := ids[|ids| - 1];
      if id in swept.txs && IsExpired(swept.txs[id].paymeTime, now, c.timeoutMs) {
        ReleaseGrows(swept, id, TIMEOUT_REASON, now);
        GrowsTransitive(r, swept, TimeOut(swept, id, now));
      }
    }
  }

  lemma OpenGrows(r: Rows, q: Opening, ref: Ref, now: int)
    requires ref !in r.minted && r.intents.Keys <= r.minted
    ensures Grows(r, Open(r, q, ref, now).1)
  {
  }

  lemma CreateGrows(r: Rows, q: CreateCall, now: int, c: Config)
    ensures Grows(r, Create(r, q, now, c).1)
  {
    hide CancelAndRelease;
    if q.id in r.txs { ReleaseGrows(r, q.id, TIMEOUT_REASON, now); }
  }

  lemma SettleGrows(r: Rows, id: TxId, now: int, c: Config)
    requires id in r.txs && r.txs[id].state == CREATED
    ensures Grows(r, Settle(r, id, now, c).1)
  {
    var after := Settle(r, id, now, c).1;
    forall t | t in r.txs ensures t in after.txs && TxGrows(r.txs[t], after.txs[t]) {}
    forall ref | ref in r.intents ensures ref in after.intents && IntentGrows(r.intents[ref], after.intents[ref]) {}
    assert after.intents.Keys == r.intents.Keys;
  }

  lemma PerformGrows(r: Rows, id: TxId, now: int, c: Config)
    ensures Grows(r, Perform(r, id, now, c).1)
  {
    hide CancelAndRelease, Settle, Grows;
    GrowsReflexive(r);
    if id in r.txs && r.txs[id].state == CREATED {
      ReleaseGrows(r, id, TIMEOUT_REASON, now);
      SettleGrows(r, id, now, c);
    }
  }

  lemma MarksGrow(r: Rows, ref: Ref, text: string, now: int)
    ensures Grows(r, ForceSettle(r, ref, text, now).1)
    ensures Grows(r, MarkNotified(r, ref, now).1) && Grows(r, ClaimResume(r, ref, now).1)
  {
    hide Grows;
    GrowsReflexive(r);
    if ref in r.intents {
      var i := r.intents[ref];
      if i.state in {PENDING, AWAITING} {
        IntentUpdateGrows(r, ref, i.(state := PAID, settledAt := Some(now), note := Some(OperatorNote(text))));
      }
      if i.notifiedAt.None? { IntentUpdateGrows(r, ref, i.(notifiedAt := Some(now))); }
      if i.resumedAt.None? { IntentUpdateGrows(r, ref, i.(resumedAt := Some(now))); }
    }
  }

  lemma ErasureGrows(r: Rows, u: User)
    ensures Grows(r, ForgetBuyer(r, u))
  {
  }

  lemma PurgeGrows(r: Rows, refs: set<Ref>, cutoff: int)
    ensures Grows(r, Purge(r, refs, cutoff))
  {
  }

  lemma MoveGrows(r: Rows, step: RailStep, now: int)
    requires RailInv(r) && Possible(r, step)
    ensures Grows(r, Move(r, step, now))
  {
    assert r.intents.Keys <= r.minted;
    hide RailInv, Grows, Open, Create, Perform, CancelAndRelease, ForceSettle, ExpireAll, TimeOutAll;
    hide MarkNotified, ClaimResume, ForgetBuyer, Purge;
    GrowsReflexive(r);
    match step
    case OpenStep(q, ref) => OpenGrows(r, q, ref, now);
    case CreateStep(call, c) => CreateGrows(r, call, now, c);
    case PerformStep(id, c) => PerformGrows(r, id, now, c);
    case CancelStep(id, reason) => if id in r.txs { ReleaseGrows(r, id, reason, now); }
    case ForceSettleStep(ref, text) => MarksGrow(r, ref, text, now);
    case ExpireStep(refs) => ExpireAllGrows(r, refs, now);
    case TimeOutStep(ids, c) => TimeOutAllGrows(r, ids, now, c);
    case NotifyStep(ref) => MarksGrow(r, ref, "", now);
    case ResumeStep(ref) => MarksGrow(r, ref, "", now);
    case ForgetBuyerStep(u) => ErasureGrows(r, u);
    case PurgeStep(doomed, cutoff) => PurgeGrows(r, doomed, cutoff);
  }

  // ---- expiry ---------------------------------------------------------------------------------

  /** The expiry sweep decides each intent by its own window, and can only see pending ones. */
  lemma {:induction false} ExpiryIsExact(r: Rows, refs: seq<Ref>, now: int, ref: Ref)
    requires ref in r.intents
    ensures var after := ExpireAll(r, refs, now).1;
      && ref in after.intents && after.txs == r.txs
      && after.intents[ref] == if ref in refs && r.intents[ref].state == PENDING && r.intents[ref].validUntil <= now
                               then r.intents[ref].(state := EXPIRED) else r.intents[ref]
  {
    if refs != [] {
      ExpiryIsExact(r, refs[..|refs| - 1], now, ref);
      assert ref in refs <==> ref in refs[..|refs| - 1] || ref == refs[|refs| - 1];
    }
  }

  /** An intent under a live transaction is never expired, whatever the sweep read. */
  lemma HeldIsNeverExpired(r: Rows, id: TxId, refs: seq<Ref>, now: int)
    requires RailInv(r) && id in r.txs && r.txs[id].state in {CREATED, PERFORMED}
    ensures var ref := r.txs[id].intent;
      ref in r.intents && ref in ExpireAll(r, refs, now).1.intents
      && ExpireAll(r, refs, now).1.intents[ref] == r.intents[ref]
  {
    assert TxHolds(r, id);
    ExpiryIsExact(r, refs, now, r.txs[id].intent);
  }

  /** A declined card lets the customer try another: after a cancel the intent can be held again. */
  lemma ReleasedCanBeHeldAgain(r: Rows, id: TxId, reason: int, now: int, q: CreateCall, later: int, c: Config)
    requires RailInv(r) && id in r.txs && r.txs[id].state == CREATED
    requires var i := r.intents[r.txs[id].intent];
      i.state == AWAITING && i.user.Some? && i.merchant == c.merchant && later < i.validUntil && i.amount == q.amount
    requires q.id !in r.txs && q.ref == r.txs[id].intent
    ensures var (cancelled, after) := Cancel(r, id, reason, now);
      && cancelled.Answer? && cancelled.value.state == CANCELLED_TX
      && Create(after, q, later, c).0.Answer?
  {
    assert TxHolds(r, id);
  }

  /** The stale sweep's coarse read misses no transaction the exact predicate calls expired. */
  lemma StaleReadMissesNothing(paymeTime: int, now: int, timeoutMs: nat)
    requires IsExpired(paymeTime, now, timeoutMs)
    ensures paymeTime <= now - timeoutMs * 1000
  {
  }

  // ---- runs -----------------------------------------------------------------------------------

  datatype RailCall = RailCall(now: int, step: RailStep)

  /** Any interleaving of calls, sweeps, operators and erasures; the clock may even jump. */
  ghost predicate IsRailRun(states: seq<Rows>, steps: seq<RailCall>) {
    |states| == |steps| + 1 && forall i :: 0 <= i < |steps| ==>
      Possible(states[i], steps[i].step) && states[i + 1] == Move(states[i], steps[i].step, steps[i].now)
  }

  lemma {:induction false} RailRunKeeps(states: seq<Rows>, steps: seq<RailCall>, i: nat)
    requires IsRailRun(states, steps) && RailInv(states[0]) && i <= |steps|
    ensures RailInv(states[i])
  {
    hide RailInv, Move;
    if i > 0 {
      RailRunKeeps(states, steps, i - 1);
      MoveKeeps(states[i - 1], steps[i - 1].step, steps[i - 1].now);
    }
  }

  lemma {:induction false} RailRunGrows(states: seq<Rows>, steps: seq<RailCall>, i: nat, j: nat)
    requires IsRailRun(states, steps) && RailInv(states[0]) && i <= j <= |steps|
    ensures RailInv(states[i]) && RailInv(states[j]) && Grows(states[i], states[j])
    decreases j
  {
    hide RailInv, Move, Grows;
    RailRunKeeps(states, steps, i);
    RailRunKeeps(states, steps, j);
    if i == j {
      GrowsReflexive(states[i]);
    } else {
      RailRunGrows(states, steps, i, j - 1);
      MoveGrows(states[j - 1], steps[j - 1].step, steps[j - 1].now);
      GrowsTransitive(states[i], states[j - 1], states[j]);
    }
  }

  // ---- replay ---------------------------------------------------------------------------------

  lemma PerformAnswers(a: Rows, id: TxId, now: int, c: Config)
    requires RailInv(a) && Perform(a, id, now, c).0.Answer?
    ensures var (reply, after, _) := Perform(a, id, now, c);
      id in after.txs && after.txs[id] == reply.value && reply.value.state == PERFORMED
  {
  }

  lemma CancelAnswers(a: Rows, id: TxId, reason: int, now: int)
    requires Cancel(a, id, reason, now).0.Answer?
    ensures var (reply, after) := Cancel(a, id, reason, now);
      id in after.txs && after.txs[id] == reply.value && reply.value.state in {CANCELLED_TX, CANCELLED_AFTER_PERFORM}
  {
  }

  lemma CreateAnswers(a: Rows, q: CreateCall, now: int, c: Config)
    requires RailInv(a) && Create(a, q, now, c).0.Answer?
    ensures var (reply, after) := Create(a, q, now, c);
      && q.id in after.txs && after.txs[q.id] == reply.value && reply.value.state == CREATED
      && TxShape(reply.value)
  {
  }

  lemma OpenAnswers(a: Rows, q: Opening, ref: Ref, now: int)
    requires RailInv(a) && Open(a, q, ref, now).0.Answer?
    ensures var (reply, after) := Open(a, q, ref, now);
      reply.value in after.intents && after.intents[reply.value].key == SaleKey(q.product, q.tail)
  {
    assert Indexed(a);
  }

  /**
   * A performed transaction answers every later perform, by any deployment at any point of
   * any continuation, with the record of the first one, stored instant included, and writes
   * nothing; and it can no longer be cancelled.
   */
  lemma PerformReplays(states: seq<Rows>, steps: seq<RailCall>, i: nat, j: nat, id: TxId, c: Config,
                       later: int, d: Config, reason: int)
    requires IsRailRun(states, steps) && RailInv(states[0]) && i < j <= |steps|
    requires steps[i].step == PerformStep(id, c) && Perform(states[i], id, steps[i].now, c).0.Answer?
    ensures var first := Perform(states[i], id, steps[i].now, c).0;
      && Perform(states[j], id, later, d) == (first, states[j], None)
      && Read(states[j], id) == first && Cancel(states[j], id, reason, later) == (Refused(ALREADY_DELIVERED), states[j])
  {
    hide Perform, CancelAndRelease;
    RailRunKeeps(states, steps, i);
    RailRunGrows(states, steps, i + 1, j);
    PerformAnswers(states[i], id, steps[i].now, c);
    PerformedAnswersAlike(states[j], id, later, d, reason);
  }

  lemma PerformedAnswersAlike(b: Rows, id: TxId, later: int, d: Config, reason: int)
    requires RailInv(b) && id in b.txs && b.txs[id].state == PERFORMED
    ensures Perform(b, id, later, d) == (Answer(b.txs[id]), b, None)
    ensures Read(b, id) == Answer(b.txs[id]) && Cancel(b, id, reason, later) == (Refused(ALREADY_DELIVERED), b)
  {
    assert TxHolds(b, id);
  }

  /**
   * A cancelled transaction answers every later cancel with the record of the first, writing
   * nothing, for as long as its intent is kept; once retention has deleted an expired intent
   * the same call can only be answered with a fault.
   */
  lemma CancelReplays(states: seq<Rows>, steps: seq<RailCall>, i: nat, j: nat, id: TxId, reason: int, other: int, later: int)
    requires IsRailRun(states, steps) && RailInv(states[0]) && i < j <= |steps|
    requires steps[i].step == CancelStep(id, reason) && Cancel(states[i], id, reason, steps[i].now).0.Answer?
    ensures var first := Cancel(states[i], id, reason, steps[i].now).0;
      && Cancel(states[j], id, other, later)
         == (if first.value.intent in states[j].intents then first else Refused(STORAGE_FAULT), states[j])
      && Read(states[j], id) == Cancel(states[j], id, other, later).0
  {
    hide CancelAndRelease;
    RailRunGrows(states, steps, i + 1, j);
    CancelAnswers(states[i], id, reason, steps[i].now);
    assert TxGrows(states[i + 1].txs[id], states[j].txs[id]);
  }

  /** A replayed create returns the stored transaction until it leaves its window or its state. */
  lemma CreateReplays(states: seq<Rows>, steps: seq<RailCall>, i: nat, j: nat, q: CreateCall, c: Config,
                      again: CreateCall, later: int, d: Config)
    requires IsRailRun(states, steps) && RailInv(states[0]) && i < j <= |steps| && again.id == q.id
    requires steps[i].step == CreateStep(q, c) && Create(states[i], q, steps[i].now, c).0.Answer?
    ensures q.id in states[j].txs
    ensures var first := Create(states[i], q, steps[i].now, c).0;
      if states[j].txs[q.id].state == CREATED && !IsExpired(first.value.paymeTime, later, d.timeoutMs)
      then Create(states[j], again, later, d) == (first, states[j])
      else Create(states[j], again, later, d).0 == Refused(STATE_REFUSAL)
  {
    hide CancelAndRelease, Payable, HoldIntent;
    RailRunKeeps(states, steps, i);
    RailRunGrows(states, steps, i + 1, j);
    CreateAnswers(states[i], q, steps[i].now, c);
    var b := states[j];
    assert TxGrows(states[i + 1].txs[q.id], b.txs[q.id]) && TxShape(b.txs[q.id]) && TxHolds(b, q.id);
  }

  /**
   * A payment that has been taken up by one transaction is closed to every other. From an
   * answered create on, over any continuation, while that transaction is open or performed a
   * create under another id is refused and writes nothing, whoever sends it; and so is its quote.
   */
  lemma HoldShutsOthersOut(states: seq<Rows>, steps: seq<RailCall>, i: nat, j: nat, q: CreateCall, c: Config,
                           other: CreateCall, later: int, d: Config)
    requires IsRailRun(states, steps) && RailInv(states[0]) && i < j <= |steps|
    requires steps[i].step == CreateStep(q, c) && Create(states[i], q, steps[i].now, c).0.Answer?
    requires q.id in states[j].txs && states[j].txs[q.id].state in {CREATED, PERFORMED}
    requires other.id !in states[j].txs && other.ref == Create(states[i], q, steps[i].now, c).0.value.intent
    ensures Create(states[j], other, later, d).0.Refused? && Create(states[j], other, later, d).1 == states[j]
    ensures Payable(states[j], other.ref, other.amount, later, d).Refused?
  {
    hide CancelAndRelease, Payable, HoldIntent;
    RailRunKeeps(states, steps, i);
    RailRunGrows(states, steps, i + 1, j);
    CreateAnswers(states[i], q, steps[i].now, c);
    assert TxGrows(states[i + 1].txs[q.id], states[j].txs[q.id]) && TxHolds(states[j], q.id);
    TakenIsNotPayable(states[j], other.ref, other.amount, later, d);
  }

  lemma TakenIsNotPayable(r: Rows, ref: Ref, amount: int, now: int, c: Config)
    requires ref in r.intents && r.intents[ref].state in {AWAITING, PAID}
    ensures Payable(r, ref, amount, now, c).Refused?
  {
  }

  /**
   * A press under a used key gets the first press's reference, price and resume marker,
   * whatever it asks for, for as long as that intent is kept.
   */
  lemma OpenReplays(states: seq<Rows>, steps: seq<RailCall>, i: nat, j: nat, q: Opening, ref: Ref,
                    again: Opening, other: Ref, later: int)
    requires IsRailRun(states, steps) && RailInv(states[0]) && i < j <= |steps|
    requires steps[i].step == OpenStep(q, ref) && Open(states[i], q, ref, steps[i].now).0.Answer?
    requires Open(states[i], q, ref, steps[i].now).0.value in states[j].intents
    requires again.product == q.product && again.tail == q.tail && Open(states[j], again, other, later).0.Answer?
    ensures Open(states[j], again, other, later) == (Open(states[i], q, ref, steps[i].now).0, states[j])
    ensures var won := Open(states[i], q, ref, steps[i].now).0.value;
      && won in states[i + 1].intents && states[j].intents[won].amount == states[i + 1].intents[won].amount
      && (states[j].intents[won].resumeOrder == states[i + 1].intents[won].resumeOrder || states[j].intents[won].user.None?)
  {
    RailRunKeeps(states, steps, i);
    RailRunGrows(states, steps, i + 1, j);
    OpenAnswers(states[i], q, ref, steps[i].now);
    var won := Open(states[i], q, ref, steps[i].now).0.value;
    assert IntentGrows(states[i + 1].intents[won], states[j].intents[won]) && Indexed(states[j]);
  }

  /** Paid is for ever: same instant, same note, same holder, and retention cannot delete it. */
  lemma PaidIsAbsorbing(states: seq<Rows>, steps: seq<RailCall>, i: nat, j: nat, ref: Ref)
    requires IsRailRun(states, steps) && RailInv(states[0]) && i <= j <= |steps|
    requires ref in states[i].intents && states[i].intents[ref].state == PAID
    ensures ref in states[j].intents && states[j].intents[ref].state == PAID
    ensures states[j].intents[ref].settledAt == states[i].intents[ref].settledAt
    ensures states[j].intents[ref].note == states[i].intents[ref].note
  {
    RailRunGrows(states, steps, i, j);
  }

  ghost predicate ClaimsResume(r: Rows, step: RailStep, now: int) {
    step.ResumeStep? && ClaimResume(r, step.ref, now).0 == Answer(true)
  }

  /** However often a settlement is announced, a paid intent hands out one resume claim in all. */
  lemma ResumeAtMostOnce(states: seq<Rows>, steps: seq<RailCall>, i: nat, j: nat, ref: Ref)
    requires IsRailRun(states, steps) && RailInv(states[0]) && i < j < |steps|
    requires steps[i].step == ResumeStep(ref) == steps[j].step
    requires ClaimsResume(states[i], steps[i].step, steps[i].now)
    ensures states[i].intents[ref].state == PAID
    ensures !ClaimsResume(states[j], steps[j].step, steps[j].now)
  {
    RailRunGrows(states, steps, i + 1, j);
    assert states[i + 1].intents[ref].resumedAt.Some?;
  }

  /** Nothing ever cancels an intent: that state, and the refusal for it, are never reached. */
  lemma IntentsAreNeverCancelled(states: seq<Rows>, steps: seq<RailCall>, i: nat, ref: Ref, amount: int, now: int, c: Config)
    requires IsRailRun(states, steps) && RailInv(states[0]) && i <= |steps|
    ensures ref in states[i].intents ==> states[i].intents[ref].state != INTENT_CANCELLED
    ensures Payable(states[i], ref, amount, now, c) != Refused(ACCOUNT_CANCELLED)
  {
    RailRunKeeps(states, steps, i);
    if ref in states[i].intents { assert IntentShape(states[i].intents[ref]); }
  }

  // ---- what retention orphans ----------------------------------------------------------------------

  /**
   * Deleting an abandoned intent never touches one that an open or performed transaction
   * names; but an expired intent whose card was once declined leaves its cancelled
   * transaction pointing at nothing.
   */
  lemma PurgeOrphansOnlyCancelled(r: Rows, refs: set<Ref>, cutoff: int, id: TxId)
    requires RailInv(r) && id in r.txs && r.txs[id].intent in r.intents
    ensures r.txs[id].intent !in Purge(r, refs, cutoff).intents
       <==> var i := r.intents[r.txs[id].intent];
            r.txs[id].intent in refs && i.createdAt <= cutoff && i.state in {INTENT_CANCELLED, EXPIRED}
    ensures r.txs[id].intent !in Purge(r, refs, cutoff).intents ==>
      r.txs[id].state == CANCELLED_TX && Read(Purge(r, refs, cutoff), id) == Refused(STORAGE_FAULT)
  {
    assert TxShape(r.txs[id]) && TxHolds(r, id) && IntentShape(r.intents[r.txs[id].intent]);
  }

  // ---- one song, opened and held ----------------------------------------------------------------------

  const SHOP := Config("shop", 43_200_000)
  const SONG := Opening(SINGLE, "song", 7, 15_000, None, None, "shop", 86_400, None)

  const HOLD := CreateCall("tx", 0, 15_000, "ref")

  // Its intent once opened, and then once held by the rail.
  const OPENED := Rows(map["ref" := NewIntent(SONG, 0)], map[SingleSale("song") := "ref"], map[], {"ref"})
  const HELD := OPENED.(intents := map["ref" := NewIntent(SONG, 0).(state := AWAITING, active := Some("tx"))],
                        txs := map["tx" := Tx("ref", 0, 15_000, CREATED, None, SECOND, None, None)])

  lemma SongIsHeld()
    ensures Possible(NO_ROWS, OpenStep(SONG, "ref")) && Move(NO_ROWS, OpenStep(SONG, "ref"), 0) == OPENED
    ensures Move(OPENED, CreateStep(HOLD, SHOP), SECOND) == HELD && RailInv(HELD)
  {
    hide RailInv;
    assert NO_ROWS.minted + {"ref"} == {"ref"};
    NoRowsHold();
    MoveKeeps(NO_ROWS, OpenStep(SONG, "ref"), 0);
    MoveKeeps(OPENED, CreateStep(HOLD, SHOP), SECOND);
  }

  lemma AbandonedIsOrphaned() returns (freed: Rows, expired: Rows)
    ensures freed == Move(HELD, CancelStep("tx", 3), 2 * SECOND) && expired == Move(freed, ExpireStep(["ref"]), DAY)
    ensures Read(expired, "tx").Answer?
    ensures var purged := Move(expired, PurgeStep({"ref"}, 60 * DAY), 90 * DAY);
      "tx" in purged.txs && purged.txs["tx"].state == CANCELLED_TX && Read(purged, "tx") == Refused(STORAGE_FAULT)
  {
    freed := Move(HELD, CancelStep("tx", 3), 2 * SECOND);
    expired := Move(freed, ExpireStep(["ref"]), DAY);
    ExpiryIsExact(freed, ["ref"], DAY, "ref");
  }

  /** It happens: a declined card, an intent left to expire, and retention; the rail's status read then faults. */
  lemma OrphanHappens() returns (states: seq<Rows>, steps: seq<RailCall>)
    ensures IsRailRun(states, steps) && states[0] == NO_ROWS && |steps| == 5
    ensures "tx" in states[5].txs && states[5].txs["tx"].state == CANCELLED_TX
    ensures Read(states[4], "tx").Answer? && Read(states[5], "tx") == Refused(STORAGE_FAULT)
  {
    hide Move, Read;
    steps := [RailCall(0, OpenStep(SONG, "ref")), RailCall(SECOND, CreateStep(HOLD, SHOP)),
              RailCall(2 * SECOND, CancelStep("tx", 3)), RailCall(DAY, ExpireStep(["ref"])),
              RailCall(90 * DAY, PurgeStep({"ref"}, 60 * DAY))];
    SongIsHeld();
    var freed, expired := AbandonedIsOrphaned();
    states := [NO_ROWS, OPENED, HELD, freed, expired, Move(expired, PurgeStep({"ref"}, 60 * DAY), 90 * DAY)];
  }
}
