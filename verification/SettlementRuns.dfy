/**
 * The settlement counters over whole runs: which calls pay, which leave a receipt and which
 * come late, each told from the state before the call, and exactly when the counters agree.
 */
module SettlementRuns {
  import opened Option
  import opened Keys
  import opened Periods
  import opened Ledger
  import opened LedgerInvariant
  import opened Rail
  import opened RailInvariant
  import opened RailTheorems
  import opened Settlement
  import opened Reconciliation

  // ---- one call, from the state before it ----------------------------------------------------

  /** Can this intent's sale be written now? Only a plan nobody could use cannot. */
  predicate Sellable(db: Db, i: Intent, now: int) {
    || i.user.None? || i.product == SINGLE
    || (i.songs.Some? && i.days.Some? && (CurrentPlan(db, i.user.value, now).Some? || i.songs.value >= 1))
  }

  /** Would its sale leave a receipt? Not for a buyer nobody knows, nor for a plan while another runs. */
  predicate LeavesReceipt(db: Db, i: Intent, now: int) {
    i.user.Some? && (i.product == SINGLE || CurrentPlan(db, i.user.value, now).None?)
  }

  /** An open transaction, inside its window, at the merchant that opened its intent. */
  predicate PerformTakes(s: System, id: TxId, now: int, c: Config) {
    && id in s.rail.txs && s.rail.txs[id].state == CREATED && !IsExpired(s.rail.txs[id].paymeTime, now, c.timeoutMs)
    && s.rail.txs[id].intent in s.rail.intents
    && var i := s.rail.intents[s.rail.txs[id].intent]; i.merchant == c.merchant && Sellable(s.db, i, now)
  }

  /** An open intent with a known buyer. */
  predicate HandTakes(s: System, ref: Ref, now: int) {
    && ref in s.rail.intents && s.rail.intents[ref].state in {PENDING, AWAITING}
    && s.rail.intents[ref].user.Some? && Sellable(s.db, s.rail.intents[ref], now)
  }

  lemma SaleIsWrittenIff(db: Db, i: Intent, reference: string, now: int)
    requires IntentShape(i) && i.user.Some?
    ensures WriteSale(db, SaleOf(i, i.user.value, reference), now).0 <==> Sellable(db, i, now)
  {
    hide KeysOf, PickPlan, GrantTx;
  }

  /**
   * What a settlement sells its buyer, as rows of the meter. A single song is one receipt at the intent's
   * own price, one grant row and one credit, all under the intent's key, unless that key was sold before;
   * a plan is one row with the songs and days the intent was opened for, unless another runs. One
   * opened without songs or days cannot be sold, and unwinds the settlement.
   */
  lemma SaleIsExact(db: Db, i: Intent, u: User, reference: string, now: int, p: Policy)
    requires Inv(db, now, p) && IntentShape(i) && i.user == Some(u)
    ensures var (written, after) := WriteSale(db, SaleOf(i, u, reference), now);
      if i.product == SINGLE then
        && written && after.plans == db.plans && (forall v :: v != u ==> BalanceOf(after, v) == BalanceOf(db, v))
        && if i.key in db.topups then
             after.topups == db.topups && after.ledger == db.ledger && BalanceOf(after, u) == BalanceOf(db, u)
           else
             && after.topups == db.topups[i.key := Receipt(Some(u), 1, i.amount, reference, now)]
             && after.ledger == db.ledger + [Entry(Some(u), GRANT, TOPUP_PURCHASE, 1, None, 0, i.key, now)]
             && BalanceOf(after, u) == BalanceOf(db, u) + 1
      else if i.songs.None? || i.days.None? then !written
      else if CurrentPlan(db, u, now).Some? then written && after == db
      else if i.songs.value < 1 then !written
      else if HasPlanKey(db.plans, i.key) then written && after == db
      else
        && written
        && after == db.(plans := db.plans + [Plan(Some(u), i.songs.value, 0, i.amount, reference, i.key,
                                                  now + i.days.value * 86_400_000_000, now)])
  {
    hide RowsInv, BooksInv, PlansInv, PickPlan, KeysOf;
    if i.product == SINGLE { assert i.key in db.topups <==> i.key in KeysOf(db.ledger); }
  }

  lemma OpenTxSettles(r: Rows, id: TxId, now: int, c: Config)
    requires RailInv(r) && id in r.txs && r.txs[id].state == CREATED
    ensures r.txs[id].intent in r.intents && IntentShape(r.intents[r.txs[id].intent])
    ensures var ref, i := r.txs[id].intent, r.intents[r.txs[id].intent];
      var (reply, after, sale) := Settle(r, id, now, c);
      if i.merchant != c.merchant then reply.Refused? && after == r && sale.None?
      else
        && reply.Answer? && i.state in {AWAITING, PAID}
        && after == WithIntent(WithTx(r, id, r.txs[id].(state := PERFORMED, performTime := Some(now))), ref,
             if i.state == AWAITING then i.(state := PAID, settledAt := Some(now), note := Some(RailNote)) else i)
        && sale == (if i.user.None? then None else Some(SaleOf(i, i.user.value, id)))
  {
    assert TxHolds(r, id);
    var ref := r.txs[id].intent;
    if r.intents[ref].state == PAID { assert r.intents == r.intents[ref := r.intents[ref]]; }
  }

  /** When a perform of an open transaction is answered, and what it moves on the rail. */
  lemma PerformIsAnsweredIff(s: System, id: TxId, now: int, c: Config)
    requires RailInv(s.rail) && id in s.rail.txs && s.rail.txs[id].state == CREATED
    ensures PerformCall(s, id, now, c).0.Answer? <==> PerformTakes(s, id, now, c)
    ensures s.rail.txs[id].intent in s.rail.intents
    ensures PerformTakes(s, id, now, c) ==>
      var ref := s.rail.txs[id].intent;
      var i := s.rail.intents[ref];
      && PerformCall(s, id, now, c).1.rail
         == WithIntent(WithTx(s.rail, id, s.rail.txs[id].(state := PERFORMED, performTime := Some(now))), ref,
              if i.state == AWAITING then i.(state := PAID, settledAt := Some(now), note := Some(RailNote)) else i)
      && PerformCall(s, id, now, c).1.db
         == (if i.user.None? then s.db else WriteSale(s.db, SaleOf(i, i.user.value, id), now).1)
  {
    hide RailInv, Settle, WriteSale, Sellable, CancelAndRelease, IsExpired;
    OpenTxSettles(s.rail, id, now, c);
    var i := s.rail.intents[s.rail.txs[id].intent];
    if i.user.Some? { SaleIsWrittenIff(s.db, i, id, now); }
    UnsoldNeedsNoSale(s.db, i, now);
  }

  lemma UnsoldNeedsNoSale(db: Db, i: Intent, now: int)
    ensures i.user.None? ==> Sellable(db, i, now)
  {
  }

  /** When an operator's settlement newly pays, and what it moves. */
  lemma HandPaysIff(s: System, ref: Ref, text: string, now: int)
    requires RailInv(s.rail)
    ensures SettleByHand(s, ref, text, now).0.Answer? <==> RefIsPaid(s.rail, ref) || HandTakes(s, ref, now)
    ensures HandTakes(s, ref, now) ==>
      var i := s.rail.intents[ref];
      && SettleByHand(s, ref, text, now).1.rail
         == WithIntent(s.rail, ref, i.(state := PAID, settledAt := Some(now), note := Some(OperatorNote(text))))
      && SettleByHand(s, ref, text, now).1.db == WriteSale(s.db, SaleOf(i, i.user.value, ref), now).1
    ensures !HandTakes(s, ref, now) ==> SettleByHand(s, ref, text, now).1 == s
  {
    if ref in s.rail.intents && s.rail.intents[ref].user.Some? {
      assert IntentShape(s.rail.intents[ref]);
      SaleIsWrittenIff(s.db, s.rail.intents[ref], ref, now);
    }
    hide RailInv, WriteSale, Sellable;
  }

  lemma UnpaidHasNoReceipt(s: System, ref: Ref, clock: int, p: Policy)
    requires SystemInv(s, clock, p) && ref in s.rail.intents && s.rail.intents[ref].state != PAID
    ensures !HasReceipt(s.db, s.rail.intents[ref].key)
  {
    IndexFinds(s.rail, ref);
    hide Inv, RailInv;
  }

  /**
   * An operator's settlement that newly pays leaves a receipt exactly when the intent bought a
   * single song or no plan covers its buyer at that instant.
   */
  lemma OperatorWritesReceiptIff(s: System, ref: Ref, text: string, now: int, clock: int, p: Policy)
    requires SystemInv(s, clock, p) && HandTakes(s, ref, now)
    ensures var after := SettleByHand(s, ref, text, now).1;
      && RefIsPaid(after.rail, ref) && !HasReceipt(s.db, s.rail.intents[ref].key)
      && (HasReceipt(after.db, s.rail.intents[ref].key) <==> LeavesReceipt(s.db, s.rail.intents[ref], now))
  {
    hide Inv, RailInv, ReceiptsPaidFor, PaidHasReceipt, WriteSale, HasReceipt, CurrentPlan, SettleByHand;
    var i := s.rail.intents[ref];
    UnpaidHasNoReceipt(s, ref, clock, p);
    HandPaysIff(s, ref, text, now);
    KnowsItsShape(s.rail, ref);
    SaleIsWrittenIff(s.db, i, ref, now);
    SaleWritesReceiptIff(s.db, SaleOf(i, i.user.value, ref), now);
  }

  lemma KnowsItsShape(r: Rows, ref: Ref)
    requires RailInv(r) && ref in r.intents
    ensures IntentShape(r.intents[ref])
  {
  }

  /** An answered perform is counted late if and only if its intent was paid already when it came. */
  lemma PerformIsLateIff(s: System, id: TxId, now: int, c: Config, from: int, to: int)
    requires RailInv(s.rail) && PerformTakes(s, id, now, c) && from <= now <= to
    ensures id in PerformedIn(PerformCall(s, id, now, c).1, from, to)
    ensures id in LateIn(PerformCall(s, id, now, c).1, from, to) <==> RefIsPaid(s.rail, s.rail.txs[id].intent)
    ensures RefIsPaid(s.rail, s.rail.txs[id].intent) ==> PerformCall(s, id, now, c).1.rail.intents == s.rail.intents
  {
    PerformIsAnsweredIff(s, id, now, c);
    assert TxHolds(s.rail, id);
    hide PerformCall, Sellable;
  }

  // ---- one step of the system -----------------------------------------------------------------

  /** The step is the call that pays this intent. */
  predicate PaysNow(s: System, step: SystemStep, now: int, ref: Ref) {
    match step
    case PerformArrives(id, c) => PerformTakes(s, id, now, c) && s.rail.txs[id].intent == ref && !RefIsPaid(s.rail, ref)
    case OperatorSettles(paid, _) => paid == ref && HandTakes(s, ref, now)
    case _ => false
  }

  /** The step performs a transaction whose intent is paid already. */
  predicate ComesLate(s: System, step: SystemStep, now: int, id: TxId) {
    step.PerformArrives? && step.id == id && PerformTakes(s, id, now, step.c) && RefIsPaid(s.rail, s.rail.txs[id].intent)
  }

  /** The step pays this intent, or comes late to it, and can leave its receipt. */
  predicate Receipted(s: System, step: SystemStep, now: int, ref: Ref) {
    && ref in s.rail.intents && LeavesReceipt(s.db, s.rail.intents[ref], now)
    && (PaysNow(s, step, now, ref)
        || (step.PerformArrives? && ComesLate(s, step, now, step.id) && s.rail.txs[step.id].intent == ref))
  }

  lemma QuietStep(s: System, step: SystemStep, now: int, p: Policy)
    requires p.Valid() && SystemInv(s, now, p) && May(s, step, now) && !step.PerformArrives? && !step.OperatorSettles?
    ensures NoNewPaid(s.rail, Next(s, step, now, p).rail) && Grows(s.rail, Next(s, step, now, p).rail)
    ensures RailInv(Next(s, step, now, p).rail)
  {
    hide Inv, RailInv, Grows, Apply, NoNewPaid, ReceiptsPaidFor, PaidHasReceipt, ForgetTx, ForgetBuyer;
    match step
    case OnRail(m) =>
      MoveKeeps(s.rail, m, now);
      MoveGrows(s.rail, m, now);
      MoveSettlesNothing(s.rail, m, now);
    case ForgetArrives(u) =>
      ForgetBuyerKeeps(s.rail, u);
      ErasureGrows(s.rail, u);
      MoveSettlesNothing(s.rail, ForgetBuyerStep(u), now);
    case Meter(_) =>
      GrowsReflexive(s.rail);
      NothingPaidByWaiting(s.rail);
  }

  // What a step makes of one intent's payment.
  ghost predicate Payment(s: System, after: System, now: int, ref: Ref, pays: bool) {
    && (RefIsPaid(after.rail, ref) <==> RefIsPaid(s.rail, ref) || pays)
    && (RefIsPaid(s.rail, ref) ==> !pays && after.rail.intents[ref].settledAt == s.rail.intents[ref].settledAt)
    && (pays ==> RefIsPaid(after.rail, ref) && after.rail.intents[ref].settledAt == Some(now))
  }

  lemma StepPays(s: System, step: SystemStep, now: int, p: Policy, ref: Ref)
    requires p.Valid() && SystemInv(s, now, p) && May(s, step, now)
    ensures Payment(s, Next(s, step, now, p), now, ref, PaysNow(s, step, now, ref))
  {
    hide Inv, RailInv, ReceiptsPaidFor, PaidHasReceipt, PerformCall, SettleByHand, WriteSale, Sellable, IsExpired;
    hide Apply, Move, Erase;
    match step
    case PerformArrives(id, c) =>
      if id in s.rail.txs && s.rail.txs[id].state == CREATED {
        PerformIsAnsweredIff(s, id, now, c);
        TxStands(s.rail, id);
        if !PerformTakes(s, id, now, c) { RefusedPerformPaysNothing(s, id, now, c); }
      } else { RefusedPerformPaysNothing(s, id, now, c); }
    case OperatorSettles(paid, text) => HandPaysIff(s, paid, text, now);
    case _ => QuietStep(s, step, now, p);
  }

  // A perform that is not answered from an open transaction moves nothing but that transaction's timeout.
  lemma RefusedPerformPaysNothing(s: System, id: TxId, now: int, c: Config)
    requires RailInv(s.rail) && (id in s.rail.txs && s.rail.txs[id].state == CREATED ==> !PerformTakes(s, id, now, c))
    ensures var after := PerformCall(s, id, now, c).1;
      after.db == s.db && NoNewPaid(s.rail, after.rail) && Grows(s.rail, after.rail) && RailInv(after.rail)
  {
    hide RailInv, Settle, WriteSale, Sellable, CancelAndRelease, NoNewPaid, Grows;
    NothingPaidByWaiting(s.rail);
    GrowsReflexive(s.rail);
    if id in s.rail.txs && s.rail.txs[id].state == CREATED {
      ReleaseSettlesNothing(s.rail, id, TIMEOUT_REASON, now);
      ReleaseGrows(s.rail, id, TIMEOUT_REASON, now);
      CancelKeeps(s.rail, id, TIMEOUT_REASON, now);
      PerformIsAnsweredIff(s, id, now, c);
      OpenTxSettles(s.rail, id, now, c);
    }
  }

  // What a step makes of one transaction that came late.
  predicate IsLate(s: System, id: TxId) { IsPerformed(s.rail, id) && !ByRail(s, s.rail.txs[id].intent) }

  lemma StepComesLate(s: System, step: SystemStep, now: int, p: Policy, id: TxId)
    requires p.Valid() && SystemInv(s, now, p) && May(s, step, now)
    ensures var after := Next(s, step, now, p);
      && (IsLate(after, id) <==> IsLate(s, id) || ComesLate(s, step, now, id))
      && (IsPerformed(s.rail, id) ==> !ComesLate(s, step, now, id) && IsPerformed(after.rail, id)
                                      && after.rail.txs[id].performTime == s.rail.txs[id].performTime)
      && (ComesLate(s, step, now, id) ==> after.rail.txs[id].performTime == Some(now))
  {
    hide Inv, RailInv, ReceiptsPaidFor, PaidHasReceipt, PerformCall, SettleByHand, WriteSale, Sellable, IsExpired;
    hide Apply, Move, Erase;
    if id in s.rail.txs { TxStands(s.rail, id); }
    match step
    case PerformArrives(arrived, c) =>
      if arrived in s.rail.txs && s.rail.txs[arrived].state == CREATED {
        PerformIsAnsweredIff(s, arrived, now, c);
        TxStands(s.rail, arrived);
        if !PerformTakes(s, arrived, now, c) { RefusedPerformPaysNothing(s, arrived, now, c); }
      } else { RefusedPerformPaysNothing(s, arrived, now, c); }
    case OperatorSettles(paid, text) => HandPaysIff(s, paid, text, now);
    case _ => QuietStep(s, step, now, p);
  }

  lemma TxStands(r: Rows, id: TxId)
    requires RailInv(r) && id in r.txs
    ensures TxHolds(r, id)
  {
  }

  lemma SaleWritesUnderItsKey(db: Db, sale: Sale, now: int, k: Key)
    requires WriteSale(db, sale, now).0 && k != sale.key
    ensures HasReceipt(WriteSale(db, sale, now).1, k) <==> HasReceipt(db, k)
  {
    hide WriteSale, SaleRecorded, HasReceipt;
    SaleIsRecorded(db, sale, now);
    RecordedUnderItsKey(db, WriteSale(db, sale, now).1, sale, k);
  }

  lemma RecordedUnderItsKey(a: Db, b: Db, sale: Sale, k: Key)
    requires SaleRecorded(a, b, sale) && k != sale.key
    ensures HasReceipt(b, k) <==> HasReceipt(a, k)
  {
    if HasPlanKey(a.plans, k) {
      var i :| 0 <= i < |a.plans| && a.plans[i].key == k;
      assert b.plans[i] == b.plans[..|a.plans|][i];
    }
    if HasPlanKey(b.plans, k) {
      var i :| 0 <= i < |b.plans| && b.plans[i].key == k;
      assert i < |a.plans| && b.plans[i] == b.plans[..|a.plans|][i];
    }
  }

  // What a taken settlement of `paid` makes of the receipt of `ref`.
  lemma SaleFulfils(s: System, after: System, paid: Ref, ref: Ref, reference: string, now: int)
    requires RailInv(s.rail) && paid in s.rail.intents
    requires s.rail.intents[paid].user.Some? && Sellable(s.db, s.rail.intents[paid], now)
    requires after.rail.intents.Keys == s.rail.intents.Keys
    requires forall r :: r in s.rail.intents ==> after.rail.intents[r].key == s.rail.intents[r].key
    requires var i := s.rail.intents[paid]; after.db == WriteSale(s.db, SaleOf(i, i.user.value, reference), now).1
    ensures Fulfilled(after, ref)
       <==> Fulfilled(s, ref) || (ref == paid && LeavesReceipt(s.db, s.rail.intents[paid], now))
  {
    hide WriteSale, HasReceipt, Sellable, CurrentPlan, HolderAnswers, TxHolds, TxShape;
    var i := s.rail.intents[paid];
    assert IntentShape(i);
    SaleIsWrittenIff(s.db, i, reference, now);
    var sale := SaleOf(i, i.user.value, reference);
    if ref == paid {
      SaleWritesReceiptIff(s.db, sale, now);
    } else if ref in s.rail.intents {
      IndexFinds(s.rail, paid);
      IndexFinds(s.rail, ref);
      SaleWritesUnderItsKey(s.db, sale, now, s.rail.intents[ref].key);
    }
  }

  lemma QuietlyFulfilled(s: System, after: System, now: int, p: Policy, ref: Ref)
    requires SystemInv(s, now, p) && SystemInv(after, now, p) && Grows(s.rail, after.rail) && NoNewPaid(s.rail, after.rail)
    requires forall k :: HasReceipt(after.db, k) <==> HasReceipt(s.db, k)
    ensures Fulfilled(after, ref) <==> Fulfilled(s, ref)
  {
    hide SystemInv, HasReceipt;
    if ref in s.rail.intents && s.rail.intents[ref].state != PAID { UnpaidHasNoReceipt(s, ref, now, p); }
    if ref in after.rail.intents && after.rail.intents[ref].state != PAID { UnpaidHasNoReceipt(after, ref, now, p); }
  }

  lemma StepFulfils(s: System, step: SystemStep, now: int, p: Policy, ref: Ref)
    requires p.Valid() && SystemInv(s, now, p) && May(s, step, now)
    ensures Fulfilled(Next(s, step, now, p), ref) <==> Fulfilled(s, ref) || Receipted(s, step, now, ref)
  {
    hide Inv, RailInv, ReceiptsPaidFor, PaidHasReceipt, PerformCall, SettleByHand, WriteSale, Sellable, IsExpired;
    hide Apply, Move, Erase, HasReceipt, CurrentPlan, Grows, NoNewPaid;
    var after := Next(s, step, now, p);
    NextKeeps(s, step, now, now, p);
    match step
    case PerformArrives(id, c) =>
      if id in s.rail.txs && s.rail.txs[id].state == CREATED && PerformTakes(s, id, now, c) {
        PerformIsAnsweredIff(s, id, now, c);
        var paid := s.rail.txs[id].intent;
        if s.rail.intents[paid].user.Some? { SaleFulfils(s, after, paid, ref, id, now); }
      } else {
        RefusedPerformPaysNothing(s, id, now, c);
        QuietlyFulfilled(s, after, now, p, ref);
      }
    case OperatorSettles(paid, text) =>
      HandPaysIff(s, paid, text, now);
      if HandTakes(s, paid, now) { SaleFulfils(s, after, paid, ref, paid, now); }
    case _ =>
      QuietStep(s, step, now, p);
      forall k ensures HasReceipt(after.db, k) <==> HasReceipt(s.db, k) { OnlySettlementsWriteReceipts(s, step, now, p, k); }
      QuietlyFulfilled(s, after, now, p, ref);
  }

  // ---- runs from the empty system -----------------------------------------------------------------

  ghost predicate FromStart(states: seq<System>, steps: seq<At>, start: int, p: Policy) {
    IsSystemRun(states, steps, start, p) && states[0] == START
  }

  ghost predicate PaysAt(states: seq<System>, steps: seq<At>, i: nat, ref: Ref)
    requires |states| == |steps| + 1 && i < |steps|
  {
    PaysNow(states[i], steps[i].step, steps[i].now, ref)
  }

  ghost predicate LateAt(states: seq<System>, steps: seq<At>, i: nat, id: TxId)
    requires |states| == |steps| + 1 && i < |steps|
  {
    ComesLate(states[i], steps[i].step, steps[i].now, id)
  }

  ghost predicate ReceiptedAt(states: seq<System>, steps: seq<At>, i: nat, ref: Ref)
    requires |states| == |steps| + 1 && i < |steps|
  {
    Receipted(states[i], steps[i].step, steps[i].now, ref)
  }

  lemma RunStands(states: seq<System>, steps: seq<At>, start: int, p: Policy, i: nat)
    requires FromStart(states, steps, start, p) && i <= |steps|
    ensures SystemInv(states[i], Clock(steps, start, i), p)
    ensures i < |steps| ==> SystemInv(states[i], steps[i].now, p)
  {
    hide SystemInv, Next, May;
    StartHolds(start, p);
    SystemRunKeeps(states, steps, start, p, i);
    if i < |steps| { SystemAges(states[i], Clock(steps, start, i), steps[i].now, p); }
  }

  lemma SystemAges(s: System, clock: int, now: int, p: Policy)
    requires SystemInv(s, clock, p) && clock <= now
    ensures SystemInv(s, now, p)
  {
    hide Inv, RailInv;
    TimePasses(s.db, clock, now, p);
  }

  // The same, for a window of the counters.
  lemma StepSettlesInWindow(s: System, step: SystemStep, now: int, p: Policy, ref: Ref, from: int, to: int)
    requires p.Valid() && SystemInv(s, now, p) && May(s, step, now)
    ensures ref in SettledIn(Next(s, step, now, p), from, to)
       <==> ref in SettledIn(s, from, to) || (PaysNow(s, step, now, ref) && from <= now <= to)
  {
    hide SystemInv, Next, May, PaysNow;
    StepPays(s, step, now, p, ref);
  }

  lemma StepComesLateInWindow(s: System, step: SystemStep, now: int, p: Policy, id: TxId, from: int, to: int)
    requires p.Valid() && SystemInv(s, now, p) && May(s, step, now)
    ensures id in LateIn(Next(s, step, now, p), from, to)
       <==> id in LateIn(s, from, to) || (ComesLate(s, step, now, id) && from <= now <= to)
  {
    hide SystemInv, Next, May, ComesLate, ByRail;
    StepComesLate(s, step, now, p, id);
  }

  lemma {:induction false} SettledAreThePaying(states: seq<System>, steps: seq<At>, start: int, p: Policy, n: nat,
                                               from: int, to: int, ref: Ref)
    requires FromStart(states, steps, start, p) && n <= |steps|
    ensures ref in SettledIn(states[n], from, to)
       <==> exists i :: 0 <= i < n && PaysAt(states, steps, i, ref) && from <= steps[i].now <= to
  {
    hide SystemInv, Next, May, PaysNow, SettledIn;
    if n == 0 {
      NothingCountedAtStart(from, to);
    } else {
      SettledAreThePaying(states, steps, start, p, n - 1, from, to, ref);
      RunStands(states, steps, start, p, n - 1);
      StepSettlesInWindow(states[n - 1], steps[n - 1].step, steps[n - 1].now, p, ref, from, to);
      assert PaysAt(states, steps, n - 1, ref) == PaysNow(states[n - 1], steps[n - 1].step, steps[n - 1].now, ref);
    }
  }

  lemma {:induction false} LatesAreTheLate(states: seq<System>, steps: seq<At>, start: int, p: Policy, n: nat,
                                           from: int, to: int, id: TxId)
    requires FromStart(states, steps, start, p) && n <= |steps|
    ensures id in LateIn(states[n], from, to)
       <==> exists i :: 0 <= i < n && LateAt(states, steps, i, id) && from <= steps[i].now <= to
  {
    hide SystemInv, Next, May, ComesLate, LateIn;
    if n == 0 {
      NothingCountedAtStart(from, to);
    } else {
      LatesAreTheLate(states, steps, start, p, n - 1, from, to, id);
      RunStands(states, steps, start, p, n - 1);
      StepComesLateInWindow(states[n - 1], steps[n - 1].step, steps[n - 1].now, p, id, from, to);
      assert LateAt(states, steps, n - 1, id) == ComesLate(states[n - 1], steps[n - 1].step, steps[n - 1].now, id);
    }
  }

  lemma NothingCountedAtStart(from: int, to: int)
    ensures SettledIn(START, from, to) == {} && LateIn(START, from, to) == {}
  {
  }

  lemma NothingFulfilledAtStart(ref: Ref)
    ensures !Fulfilled(START, ref)
  {
  }

  lemma {:induction false} FulfilledAreTheReceipted(states: seq<System>, steps: seq<At>, start: int, p: Policy, n: nat,
                                                    ref: Ref)
    requires FromStart(states, steps, start, p) && n <= |steps|
    ensures Fulfilled(states[n], ref) <==> exists i :: 0 <= i < n && ReceiptedAt(states, steps, i, ref)
  {
    hide SystemInv, Next, May, Receipted, Fulfilled;
    if n == 0 {
      NothingFulfilledAtStart(ref);
    } else {
      FulfilledAreTheReceipted(states, steps, start, p, n - 1, ref);
      RunStands(states, steps, start, p, n - 1);
      StepFulfils(states[n - 1], steps[n - 1].step, steps[n - 1].now, p, ref);
      assert ReceiptedAt(states, steps, n - 1, ref) == Receipted(states[n - 1], steps[n - 1].step, steps[n - 1].now, ref);
    }
  }

  /** Every payment of the window has some call of the run that could leave its receipt. */
  ghost predicate AllReceipted(states: seq<System>, steps: seq<At>, from: int, to: int)
    requires |states| == |steps| + 1
  {
    forall i, ref :: 0 <= i < |steps| && PaysAt(states, steps, i, ref) && from <= steps[i].now <= to ==>
      exists k :: 0 <= k < |steps| && ReceiptedAt(states, steps, k, ref)
  }

  ghost predicate NoneLate(states: seq<System>, steps: seq<At>, from: int, to: int)
    requires |states| == |steps| + 1
  {
    forall i, id :: 0 <= i < |steps| && LateAt(states, steps, i, id) ==> !(from <= steps[i].now <= to)
  }

  lemma NothingMissesAReceiptIff(states: seq<System>, steps: seq<At>, start: int, p: Policy, from: int, to: int)
    requires FromStart(states, steps, start, p)
    ensures (forall ref :: ref in SettledIn(states[|steps|], from, to) ==> Fulfilled(states[|steps|], ref))
       <==> AllReceipted(states, steps, from, to)
  {
    hide SystemInv, SettledIn, Fulfilled, PaysAt, ReceiptedAt, IsSystemRun;
    var n := RunLength(states, steps, start, p);
    forall ref
      ensures ref in SettledIn(states[n], from, to)
         <==> exists i :: 0 <= i < n && PaysAt(states, steps, i, ref) && from <= steps[i].now <= to
      ensures Fulfilled(states[n], ref) <==> exists i :: 0 <= i < n && ReceiptedAt(states, steps, i, ref)
    {
      SettledAreThePaying(states, steps, start, p, n, from, to, ref);
      FulfilledAreTheReceipted(states, steps, start, p, n, ref);
    }
    if AllReceipted(states, steps, from, to) {
      forall ref | ref in SettledIn(states[n], from, to) ensures Fulfilled(states[n], ref) {
        var i :| 0 <= i < n && PaysAt(states, steps, i, ref) && from <= steps[i].now <= to;
      }
    } else {
      var i, ref :| 0 <= i < n && PaysAt(states, steps, i, ref) && from <= steps[i].now <= to
        && !(exists k :: 0 <= k < n && ReceiptedAt(states, steps, k, ref));
      assert ref in SettledIn(states[n], from, to);
    }
  }

  lemma RunLength(states: seq<System>, steps: seq<At>, start: int, p: Policy) returns (n: nat)
    requires FromStart(states, steps, start, p)
    ensures n == |steps| && |states| == n + 1
  {
    n := |steps|;
  }

  lemma NothingIsLateIff(states: seq<System>, steps: seq<At>, start: int, p: Policy, from: int, to: int)
    requires FromStart(states, steps, start, p)
    ensures var end := states[|steps|];
      (forall id :: id in PerformedIn(end, from, to) ==> ByRail(end, end.rail.txs[id].intent))
      <==> NoneLate(states, steps, from, to)
  {
    hide SystemInv, PerformedIn, ByRail, LateAt, IsSystemRun;
    var n := RunLength(states, steps, start, p);
    forall id
      ensures id in LateIn(states[n], from, to)
         <==> exists i :: 0 <= i < n && LateAt(states, steps, i, id) && from <= steps[i].now <= to
    {
      LatesAreTheLate(states, steps, start, p, n, from, to, id);
    }
    NothingLateIsEmpty(states[n], from, to);
    if !NoneLate(states, steps, from, to) {
      var i, id :| 0 <= i < n && LateAt(states, steps, i, id) && from <= steps[i].now <= to;
      assert id in LateIn(states[n], from, to);
    }
  }

  lemma NothingLateIsEmpty(s: System, from: int, to: int)
    ensures (forall id :: id in PerformedIn(s, from, to) ==> ByRail(s, s.rail.txs[id].intent))
       <==> (forall id :: id !in LateIn(s, from, to))
  {
    hide ByRail;
    assert forall id :: id in PerformedIn(s, from, to) && !ByRail(s, s.rail.txs[id].intent) ==> id in LateIn(s, from, to);
  }

  /**
   * The settlement equality, decided by the calls alone. After any run from the empty system,
   * performed plus settled by hand are the receipts of a window if and only if each call that
   * paid in it could leave its receipt (then or at its late perform) and no perform in it came
   * late; and each of these can be told from the state before the call.
   */
  lemma CountersAgreeIff(states: seq<System>, steps: seq<At>, start: int, p: Policy, from: int, to: int)
    requires FromStart(states, steps, start, p)
    ensures var end := states[|steps|];
      |PerformedIn(end, from, to)| + |ByHandIn(end, from, to)| == ReceiptsIn(end, from, to)
      <==> AllReceipted(states, steps, from, to) && NoneLate(states, steps, from, to)
  {
    hide SystemInv, PerformedIn, ByHandIn, ReceiptsIn, SettledIn, Fulfilled, ByRail, AllReceipted, NoneLate, Next, May;
    var n := |steps|;
    RunStands(states, steps, start, p, n);
    IdentityHoldsExactlyWhen(states[n], from, to, Clock(steps, start, n), p);
    NothingMissesAReceiptIff(states, steps, start, p, from, to);
    NothingIsLateIff(states, steps, start, p, from, to);
  }

  lemma PaidAgain(states: seq<System>, steps: seq<At>, start: int, p: Policy, k: nat, ref: Ref)
    requires FromStart(states, steps, start, p) && k < |steps| && RefIsPaid(states[k].rail, ref)
    ensures !PaysAt(states, steps, k, ref) && RefIsPaid(states[k + 1].rail, ref)
  {
    hide SystemInv, Next, May, PaysNow, RefIsPaid;
    RunStands(states, steps, start, p, k);
    StepPays(states[k], steps[k].step, steps[k].now, p, ref);
  }

  lemma {:induction false} PaidStays(states: seq<System>, steps: seq<At>, start: int, p: Policy, i: nat, k: nat, ref: Ref)
    requires FromStart(states, steps, start, p) && i <= k <= |steps| && RefIsPaid(states[i].rail, ref)
    ensures RefIsPaid(states[k].rail, ref) && (k < |steps| ==> !PaysAt(states, steps, k, ref))
  {
    hide SystemInv, Next, May, PaysAt, RefIsPaid, IsSystemRun;
    var n := RunLength(states, steps, start, p);
    if k > i {
      PaidStays(states, steps, start, p, i, k - 1, ref);
      PaidAgain(states, steps, start, p, k - 1, ref);
    }
    if k < n { PaidAgain(states, steps, start, p, k, ref); }
  }

  /** An intent is paid by at most one call of a run, be it the rail's or an operator's. */
  lemma PaidByOneCall(states: seq<System>, steps: seq<At>, start: int, p: Policy, i: nat, k: nat, ref: Ref)
    requires FromStart(states, steps, start, p) && i <= k < |steps|
    requires PaysAt(states, steps, i, ref) && PaysAt(states, steps, k, ref)
    ensures i == k
  {
    hide SystemInv, Next, May, PaysNow, RefIsPaid;
    if i < k {
      RunStands(states, steps, start, p, i);
      StepPays(states[i], steps[i].step, steps[i].now, p, ref);
      PaidStays(states, steps, start, p, i + 1, k, ref);
    }
  }

  ghost predicate LeavesItAt(states: seq<System>, steps: seq<At>, i: nat, ref: Ref)
    requires |states| == |steps| + 1 && i < |steps|
  {
    ref in states[i].rail.intents && LeavesReceipt(states[i].db, states[i].rail.intents[ref], steps[i].now)
  }

  /**
   * Over the whole of a run the condition is one on each call: the counters agree if and only
   * if every call that paid found a buyer it knew who bought a single song or had no plan
   * running, and no perform found its intent paid.
   */
  lemma WholeRunAgreesIff(states: seq<System>, steps: seq<At>, start: int, p: Policy, from: int, to: int)
    requires FromStart(states, steps, start, p)
    requires forall i :: 0 <= i < |steps| ==> from <= steps[i].now <= to
    ensures var end := states[|steps|];
      |PerformedIn(end, from, to)| + |ByHandIn(end, from, to)| == ReceiptsIn(end, from, to)
      <==> (forall i, ref :: 0 <= i < |steps| && PaysAt(states, steps, i, ref) ==> LeavesItAt(states, steps, i, ref))
           && (forall i, id :: 0 <= i < |steps| ==> !LateAt(states, steps, i, id))
  {
    hide SystemInv, PerformedIn, ByHandIn, ReceiptsIn, PaysAt, LateAt, ReceiptedAt, LeavesItAt, IsSystemRun;
    var n := RunLength(states, steps, start, p);
    CountersAgreeIff(states, steps, start, p, from, to);
    forall i, ref | 0 <= i < n && PaysAt(states, steps, i, ref) && LeavesItAt(states, steps, i, ref)
      ensures ReceiptedAt(states, steps, i, ref)
    {
      var _ := ReceiptedTells(states, steps, i, ref);
    }
    if AllReceipted(states, steps, from, to) && NoneLate(states, steps, from, to) {
      forall i, ref | 0 <= i < n && PaysAt(states, steps, i, ref) ensures LeavesItAt(states, steps, i, ref) {
        var k :| 0 <= k < n && ReceiptedAt(states, steps, k, ref);
        var id := ReceiptedTells(states, steps, k, ref);
        assert PaysAt(states, steps, k, ref);
        PaidByOneCall(states, steps, start, p, if i <= k then i else k, if i <= k then k else i, ref);
      }
    }
  }

  lemma ReceiptedTells(states: seq<System>, steps: seq<At>, i: nat, ref: Ref) returns (id: TxId)
    requires |states| == |steps| + 1 && i < |steps|
    ensures PaysAt(states, steps, i, ref) && LeavesItAt(states, steps, i, ref) ==> ReceiptedAt(states, steps, i, ref)
    ensures ReceiptedAt(states, steps, i, ref) ==>
      LeavesItAt(states, steps, i, ref) && (PaysAt(states, steps, i, ref) || LateAt(states, steps, i, id))
  {
    hide PaysNow, ComesLate, LeavesReceipt;
    id := if steps[i].step.PerformArrives? then steps[i].step.id else "";
  }

  // ---- single songs ----------------------------------------------------------------------------

  lemma NextGrows(s: System, step: SystemStep, now: int, p: Policy)
    requires p.Valid() && SystemInv(s, now, p) && May(s, step, now)
    ensures Grows(s.rail, Next(s, step, now, p).rail)
  {
    hide Inv, RailInv, Grows, ReceiptsPaidFor, PaidHasReceipt, PerformCall, SettleByHand, WriteSale, IsExpired;
    hide Apply, Move, Erase, PerformTakes, HandTakes, NoNewPaid;
    match step
    case PerformArrives(id, c) => PerformCallGrows(s, id, now, c);
    case OperatorSettles(ref, text) => SettleByHandGrows(s, ref, text, now);
    case _ => QuietStep(s, step, now, p);
  }

  lemma PerformCallGrows(s: System, id: TxId, now: int, c: Config)
    ensures Grows(s.rail, PerformCall(s, id, now, c).1.rail)
  {
    hide Perform, Grows, WriteSale;
    GrowsReflexive(s.rail);
    PerformGrows(s.rail, id, now, c);
  }

  lemma SettleByHandGrows(s: System, ref: Ref, text: string, now: int)
    ensures Grows(s.rail, SettleByHand(s, ref, text, now).1.rail)
  {
    hide ForceSettle, Grows, WriteSale;
    GrowsReflexive(s.rail);
    MarksGrow(s.rail, ref, text, now);
  }

  lemma {:induction false} RunGrows(states: seq<System>, steps: seq<At>, start: int, p: Policy, i: nat, n: nat)
    requires FromStart(states, steps, start, p) && i <= n <= |steps|
    ensures Grows(states[i].rail, states[n].rail)
  {
    hide SystemInv, Next, May, Grows;
    GrowsReflexive(states[i].rail);
    if i < n {
      RunGrows(states, steps, start, p, i, n - 1);
      RunStands(states, steps, start, p, i);
      RunStands(states, steps, start, p, n - 1);
      NextGrows(states[n - 1], steps[n - 1].step, steps[n - 1].now, p);
      RailStands(states[i], Clock(steps, start, i), p);
      GrowsTransitive(states[i].rail, states[n - 1].rail, states[n].rail);
    }
  }

  lemma RailStands(s: System, clock: int, p: Policy)
    requires SystemInv(s, clock, p)
    ensures RailInv(s.rail)
  {
  }

  // The call paid this intent while its buyer was still known.
  ghost predicate PaysTheKnown(states: seq<System>, steps: seq<At>, i: nat, ref: Ref)
    requires |states| == |steps| + 1 && i < |steps|
  {
    PaysAt(states, steps, i, ref) && ref in states[i].rail.intents && states[i].rail.intents[ref].user.Some?
  }

  /**
   * A single song has its receipt if and only if the call that paid for it, the rail's or an
   * operator's, still knew its buyer. Nothing that comes later can write it or take it away: no late
   * perform, no erasure.
   */
  lemma SongIsFulfilledIff(states: seq<System>, steps: seq<At>, start: int, p: Policy, n: nat, ref: Ref)
    requires FromStart(states, steps, start, p) && n <= |steps|
    requires ref in states[n].rail.intents && states[n].rail.intents[ref].product == SINGLE
    ensures states[n].rail.intents[ref].key in states[n].db.topups
       <==> exists i :: 0 <= i < n && PaysTheKnown(states, steps, i, ref)
    ensures var (i, topups) := (states[n].rail.intents[ref], states[n].db.topups);
      i.key in topups ==> i.state == PAID && topups[i.key].amount == i.amount
  {
    hide SystemInv, Next, May, PaysAt, ReceiptedAt, PaysTheKnown, Fulfilled, Grows;
    RunStands(states, steps, start, p, n);
    SongHasTopup(states[n], ref, Clock(steps, start, n), p);
    PaidIffFulfilled(states[n], ref, Clock(steps, start, n), p);
    FulfilledAreTheReceipted(states, steps, start, p, n, ref);
    if i :| 0 <= i < n && PaysTheKnown(states, steps, i, ref) {
      RunGrows(states, steps, start, p, i, n);
      KnownIsReceipted(states, steps, i, n, ref);
    }
    if k :| 0 <= k < n && ReceiptedAt(states, steps, k, ref) {
      RunGrows(states, steps, start, p, k, n);
      var i := FirstPaid(states, steps, start, p, k, ref);
      RunGrows(states, steps, start, p, i, k);
      ReceiptedIsKnown(states, steps, i, k, ref);
    }
  }

  lemma SongHasTopup(s: System, ref: Ref, clock: int, p: Policy)
    requires SystemInv(s, clock, p) && ref in s.rail.intents && s.rail.intents[ref].product == SINGLE
    ensures Fulfilled(s, ref) <==> s.rail.intents[ref].key in s.db.topups
  {
    KnowsItsShape(s.rail, ref);
    KeysOfSales(s, clock, p);
    hide SystemInv;
  }

  lemma KnownIsReceipted(states: seq<System>, steps: seq<At>, i: nat, n: nat, ref: Ref)
    requires |states| == |steps| + 1 && i < |steps| && n <= |steps| && PaysTheKnown(states, steps, i, ref)
    requires Grows(states[i].rail, states[n].rail) && ref in states[n].rail.intents
    requires states[n].rail.intents[ref].product == SINGLE
    ensures ReceiptedAt(states, steps, i, ref)
  {
    hide PaysNow, CurrentPlan;
  }

  // A receipted call pays the intent itself, or finds it paid by an earlier one.
  lemma FirstPaid(states: seq<System>, steps: seq<At>, start: int, p: Policy, k: nat, ref: Ref) returns (i: nat)
    requires FromStart(states, steps, start, p) && k < |steps| && ReceiptedAt(states, steps, k, ref)
    ensures i <= k && PaysAt(states, steps, i, ref)
  {
    hide SystemInv, Next, May, PaysAt, LateAt, ReceiptedAt, SettledIn, IsSystemRun;
    var n := RunLength(states, steps, start, p);
    var id := ReceiptedTells(states, steps, k, ref);
    if PaysAt(states, steps, k, ref) {
      i := k;
    } else {
      var at := LateFindsPaid(states, steps, start, p, k, id, ref);
      SettledAreThePaying(states, steps, start, p, k, at, at, ref);
      i :| 0 <= i < k && PaysAt(states, steps, i, ref) && at <= steps[i].now <= at;
    }
  }

  lemma LateFindsPaid(states: seq<System>, steps: seq<At>, start: int, p: Policy, k: nat, id: TxId, ref: Ref) returns (at: int)
    requires FromStart(states, steps, start, p) && k < |steps|
    requires ReceiptedAt(states, steps, k, ref) && !PaysAt(states, steps, k, ref)
    ensures ref in SettledIn(states[k], at, at)
  {
    hide SystemInv, Next, May, PerformTakes, HandTakes, LeavesReceipt;
    RunStands(states, steps, start, p, k);
    RailStands(states[k], Clock(steps, start, k), p);
    KnowsItsShape(states[k].rail, ref);
    at := states[k].rail.intents[ref].settledAt.value;
  }

  lemma ReceiptedIsKnown(states: seq<System>, steps: seq<At>, i: nat, k: nat, ref: Ref)
    requires |states| == |steps| + 1 && i <= k < |steps| && PaysAt(states, steps, i, ref) && ReceiptedAt(states, steps, k, ref)
    requires Grows(states[i].rail, states[k].rail)
    ensures PaysTheKnown(states, steps, i, ref)
  {
    hide CurrentPlan, Sellable;
  }

  // ---- three runs in which the counters disagree ----------------------------------------------

  function Opens(): SystemStep { OnRail(OpenStep(SONG, "ref")) }

  function Holds(): SystemStep { OnRail(CreateStep(HOLD, SHOP)) }

  lemma SongIsSold(p: Policy)
    requires p.Valid()
    ensures May(START, Opens(), 0) && Next(START, Opens(), 0, p) == System(EMPTY, OPENED)
    ensures var one := System(EMPTY, OPENED);
      May(one, Holds(), SECOND) && Next(one, Holds(), SECOND, p) == System(EMPTY, HELD)
    ensures RailInv(HELD)
  {
    hide Open, Create, RailInv;
    SongIsHeld();
  }

  // The perform that finds the intent paid by hand, and the one that finds the buyer gone.
  lemma PerformComesToPaid(paid: System)
    requires paid.rail == SettleByHand(System(EMPTY, HELD), "ref", "cash", 2 * SECOND).1.rail
    requires HandTakes(System(EMPTY, HELD), "ref", 2 * SECOND)
    ensures RefIsPaid(paid.rail, "ref") && Carries(paid.rail, "tx", "ref", CREATED)
    ensures ComesLate(paid, PerformArrives("tx", SHOP), 3 * SECOND, "tx")
  {
    hide WriteSale, SettleByHand, RailInv;
    SongIsHeld();
    HandPaysIff(System(EMPTY, HELD), "ref", "cash", 2 * SECOND);
  }

  lemma PerformComesToNobody()
    ensures var alone := Erase(System(EMPTY, HELD), 7);
      && "ref" in alone.rail.intents && alone.rail.intents["ref"].user.None?
      && PaysNow(alone, PerformArrives("tx", SHOP), 3 * SECOND, "ref")
  {
    hide ForgetTx;
  }

  lemma HandTakesHeld()
    ensures HandTakes(System(EMPTY, HELD), "ref", 2 * SECOND)
  {
  }

  /**
   * An operator pays an intent the rail is holding, which leaves the open transaction open;
   * the rail's perform then arrives after all. One song, one receipt, two settlements counted.
   */
  lemma LatePerformHappens(p: Policy) returns (states: seq<System>, steps: seq<At>)
    requires p.Valid()
    ensures FromStart(states, steps, 0, p) && |steps| == 4
    ensures RefIsPaid(states[3].rail, "ref") && Carries(states[3].rail, "tx", "ref", CREATED)
    ensures LateAt(states, steps, 3, "tx")
    ensures |PerformedIn(states[4], 0, DAY)| + |ByHandIn(states[4], 0, DAY)| != ReceiptsIn(states[4], 0, DAY)
  {
    hide Inv, RailInv, SettleByHand, PerformCall, HandTakes, ComesLate, RefIsPaid, Carries, Create, Open;
    steps := [At(0, Opens()), At(SECOND, Holds()), At(2 * SECOND, OperatorSettles("ref", "cash")),
              At(3 * SECOND, PerformArrives("tx", SHOP))];
    SongIsSold(p);
    HandTakesHeld();
    var held := System(EMPTY, HELD);
    var paid := Next(held, steps[2].step, 2 * SECOND, p);
    PerformComesToPaid(paid);
    states := [START, System(EMPTY, OPENED), held, paid, Next(paid, steps[3].step, 3 * SECOND, p)];
    assert LateAt(states, steps, 3, "tx");
    WholeRunAgreesIff(states, steps, 0, p, 0, DAY);
  }

  /** The buyer asks to be forgotten between the hold and the perform: paid for, and no receipt. */
  lemma ForgottenBuyerHappens(p: Policy) returns (states: seq<System>, steps: seq<At>)
    requires p.Valid()
    ensures FromStart(states, steps, 0, p) && |steps| == 4
    ensures PaysAt(states, steps, 3, "ref") && states[3].rail.intents["ref"].user.None?
    ensures |PerformedIn(states[4], 0, DAY)| + |ByHandIn(states[4], 0, DAY)| != ReceiptsIn(states[4], 0, DAY)
  {
    hide Inv, RailInv, Erase, PerformCall, PaysNow, Create, Open;
    steps := [At(0, Opens()), At(SECOND, Holds()), At(2 * SECOND, ForgetArrives(7)),
              At(3 * SECOND, PerformArrives("tx", SHOP))];
    SongIsSold(p);
    PerformComesToNobody();
    var held := System(EMPTY, HELD);
    var alone := Next(held, steps[2].step, 2 * SECOND, p);
    states := [START, System(EMPTY, OPENED), held, alone, Next(alone, steps[3].step, 3 * SECOND, p)];
    assert PaysAt(states, steps, 3, "ref") && !LeavesItAt(states, steps, 3, "ref");
    WholeRunAgreesIff(states, steps, 0, p, 0, DAY);
  }

  function Starter(tail: string): Opening { Opening(STARTER, tail, 7, 90_000, Some(5), Some(30), "shop", 86_400, None) }

  const TWO_OPEN := Rows(map["one" := NewIntent(Starter("1"), 0), "two" := NewIntent(Starter("2"), SECOND)],
                         map[PlanSale("1") := "one", PlanSale("2") := "two"], map[], {"one", "two"})

  lemma TwoPlansOpen(p: Policy) returns (first: System)
    requires p.Valid()
    ensures var open := OnRail(OpenStep(Starter("1"), "one")); May(START, open, 0) && Next(START, open, 0, p) == first
    ensures var open := OnRail(OpenStep(Starter("2"), "two"));
      May(first, open, SECOND) && Next(first, open, SECOND, p) == System(EMPTY, TWO_OPEN)
    ensures RailInv(TWO_OPEN)
  {
    hide RailInv;
    first := Next(START, OnRail(OpenStep(Starter("1"), "one")), 0, p);
    NoRowsHold();
    MoveKeeps(NO_ROWS, OpenStep(Starter("1"), "one"), 0);
    MoveKeeps(first.rail, OpenStep(Starter("2"), "two"), SECOND);
    assert first.rail.minted + {"two"} == {"one", "two"};
  }

  // The first payment starts the plan; the second is taken and writes nothing.
  lemma SecondPlanIsTaken() returns (one: System)
    ensures var both := System(EMPTY, TWO_OPEN);
      && one == SettleByHand(both, "one", "cash", 2 * SECOND).1 && HandTakes(both, "one", 2 * SECOND)
      && HandTakes(one, "two", 3 * SECOND) && !LeavesReceipt(one.db, one.rail.intents["two"], 3 * SECOND)
      && SettleByHand(one, "two", "cash", 3 * SECOND).1.db == one.db
  {
    one := SettleByHand(System(EMPTY, TWO_OPEN), "one", "cash", 2 * SECOND).1;
    assert one.db.plans == [Plan(Some(7), 5, 0, 90_000, "one", PlanSale("1"), 2 * SECOND + 30 * DAY, 2 * SECOND)];
    assert CurrentPlan(one.db, 7, 3 * SECOND) == Some(0);
  }

  /** A buyer opens two plans and pays an operator for both: the second takes the money and writes nothing. */
  lemma SecondPlanHappens(p: Policy) returns (states: seq<System>, steps: seq<At>)
    requires p.Valid()
    ensures FromStart(states, steps, 0, p) && |steps| == 4
    ensures PaysAt(states, steps, 2, "one") && PaysAt(states, steps, 3, "two") && states[4].db == states[3].db
    ensures |PerformedIn(states[4], 0, DAY)| + |ByHandIn(states[4], 0, DAY)| != ReceiptsIn(states[4], 0, DAY)
  {
    hide Inv, RailInv, SettleByHand, HandTakes, LeavesReceipt, Open;
    steps := [At(0, OnRail(OpenStep(Starter("1"), "one"))), At(SECOND, OnRail(OpenStep(Starter("2"), "two"))),
              At(2 * SECOND, OperatorSettles("one", "cash")), At(3 * SECOND, OperatorSettles("two", "cash"))];
    var first := TwoPlansOpen(p);
    var one := SecondPlanIsTaken();
    var two := Next(one, steps[3].step, 3 * SECOND, p);
    states := [START, first, System(EMPTY, TWO_OPEN), one, two];
    assert PaysAt(states, steps, 3, "two") && !LeavesItAt(states, steps, 3, "two");
    WholeRunAgreesIff(states, steps, 0, p, 0, DAY);
  }
}
