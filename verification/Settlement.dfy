/**
 * The payment rail feeding the credit meter: a settlement moves the rail's rows and writes
 * its receipt and its grant in one commit, and both machines keep what they keep alone.
 */
module Settlement {
  import opened Option
  import opened Keys
  import opened Ledger
  import opened LedgerInvariant
  import opened Rail
  import opened RailInvariant
  import opened RailTheorems

  datatype System = System(db: Db, rail: Rows)

  /** Route a settled intent to the receipt its own product calls for. False unwinds the commit. */
  function WriteSale(db: Db, sale: Sale, now: int): (bool, Db) {
    match sale.key
    case SingleSale(tail) => SingleSaleTx(db, sale.user, sale.purchase, tail, now)
    case PlanSale(tail) =>
      if sale.songs.None? || sale.days.None? then (false, db)
      else PlanSaleTx(db, sale.user, sale.purchase, sale.songs.value, sale.days.value, tail, now)
    case _ => (false, db)
  }

  function Commit<T>(s: System, reply: Reply<T>, rail: Rows, sale: Option<Sale>, now: int): (Reply<T>, System) {
    if sale.None? then (reply, s.(rail := rail))
    else
      var (written, db) := WriteSale(s.db, sale.value, now);
      if written then (reply, System(db, rail)) else (Refused(STORAGE_FAULT), s)
  }

  function PerformCall(s: System, id: TxId, now: int, c: Config): (Reply<Tx>, System) {
    var (reply, rail, sale) := Perform(s.rail, id, now, c);
    Commit(s, reply, rail, sale, now)
  }

  function SettleByHand(s: System, ref: Ref, text: string, now: int): (Reply<Intent>, System) {
    var (reply, rail, sale) := ForceSettle(s.rail, ref, text, now);
    Commit(s, reply, rail, sale, now)
  }

  function Erase(s: System, u: User): System {
    System(ForgetTx(s.db, u), ForgetBuyer(s.rail, u))
  }

  // ---- what ties the two together -----------------------------------------------------------

  predicate HasReceipt(db: Db, key: Key) {
    key in db.topups || HasPlanKey(db.plans, key)
  }

  predicate IsPaid(r: Rows, key: Key) {
    key in r.index && r.index[key] in r.intents && r.intents[r.index[key]].state == PAID
  }

  /** Every receipt belongs to a paid intent, at the price that intent was opened for. */
  ghost predicate ReceiptsPaidFor(s: System) {
    && (forall k :: k in s.db.topups ==>
          IsPaid(s.rail, k) && s.db.topups[k].amount == s.rail.intents[s.rail.index[k]].amount)
    && (forall i :: 0 <= i < |s.db.plans| ==>
          IsPaid(s.rail, s.db.plans[i].key)
          && s.db.plans[i].amount == s.rail.intents[s.rail.index[s.db.plans[i].key]].amount)
  }

  /** A paid single-song intent lacks its receipt only if the rail paid it for an erased buyer. */
  ghost predicate PaidHasReceipt(s: System) {
    forall ref :: ref in s.rail.intents && s.rail.intents[ref].state == PAID && s.rail.intents[ref].product == SINGLE ==>
      s.rail.intents[ref].key in s.db.topups
      || (s.rail.intents[ref].user.None? && s.rail.intents[ref].note == Some(RailNote))
  }

  ghost predicate SystemInv(s: System, clock: int, p: Policy) {
    Inv(s.db, clock, p) && RailInv(s.rail) && ReceiptsPaidFor(s) && PaidHasReceipt(s)
  }

  const START := System(EMPTY, NO_ROWS)

  lemma StartHolds(clock: int, p: Policy)
    requires p.Valid()
    ensures SystemInv(START, clock, p)
  {
    EmptyHolds(clock, p);
    NoRowsHold();
  }

  // ---- steps --------------------------------------------------------------------------------

  datatype SystemStep =
    | Meter(step: Step)
    | OnRail(move: RailStep)
    | PerformArrives(id: TxId, c: Config)
    | OperatorSettles(ref: Ref, text: string)
    | ForgetArrives(u: User)

  /** Sales reach the meter only through a settlement, and erasure reaches both halves at once. */
  ghost predicate May(s: System, step: SystemStep, now: int) {
    match step
    case Meter(m) => Enabled(s.db, m, now) && !m.SingleSaleStep? && !m.PlanSaleStep? && !m.ForgetStep?
    case OnRail(m) => Possible(s.rail, m) && !m.PerformStep? && !m.ForceSettleStep? && !m.ForgetBuyerStep?
    case _ => true
  }

  ghost function Next(s: System, step: SystemStep, now: int, p: Policy): System
    requires p.Valid() && May(s, step, now)
  {
    match step
    case Meter(m) => s.(db := Apply(s.db, m, now, p))
    case OnRail(m) => s.(rail := Move(s.rail, m, now))
    case PerformArrives(id, c) => PerformCall(s, id, now, c).1
    case OperatorSettles(ref, text) => SettleByHand(s, ref, text, now).1
    case ForgetArrives(u) => Erase(s, u)
  }

  // ---- the meter's own steps leave sales alone ------------------------------------------------

  ghost predicate SameSales(a: Db, b: Db) {
    && b.topups == a.topups && |b.plans| == |a.plans|
    && forall i :: 0 <= i < |a.plans| ==> b.plans[i].key == a.plans[i].key && b.plans[i].amount == a.plans[i].amount
  }

  lemma {:induction false} CloseAllLeavesSales(db: Db, stales: seq<StaleDebit>, now: int)
    ensures SameSales(db, CloseAll(db, stales, now).1)
  {
    hide Net, Generation, KeysOf;
    if stales != [] { CloseAllLeavesSales(db, stales[..|stales| - 1], now); }
  }

  lemma SongLeavesSales(db: Db, u: User, sight: Option<PlanSight>, now: int)
    requires u in db.accounts
    ensures SameSales(db, SongTaken(db, u, sight, now))
  {
  }

  lemma ChargeLeavesSales(db: Db, u: User, o: Uuid, cost: int, now: int, p: Policy, sight: Option<PlanSight>)
    requires p.Valid()
    ensures SameSales(db, ChargeTx(db, u, o, cost, now, p, sight).1)
  {
    hide KeysOf, Net, Generation, OpenDebits, PickPlan, ReadBalance, AllowanceDue, SongTaken;
    SongLeavesSales(Arrived(db, u, now, p), u, sight, now);
  }

  lemma MeterLeavesSales(s: System, step: Step, now: int, p: Policy)
    requires p.Valid() && May(s, Meter(step), now)
    ensures SameSales(s.db, Apply(s.db, step, now, p))
  {
    hide KeysOf, Net, Generation, ChargeTx, CloseAll;
    match step
    case ChargeStep(u, o, cost, sight) => ChargeLeavesSales(s.db, u, o, cost, now, p, sight);
    case SweepStep(_, _, picks) => CloseAllLeavesSales(s.db, StalesAt(s.db, picks), now);
    case SettleStep(_, _, _) =>
    case AdminGrantStep(_, _, _) =>
    case BlockStep(_, _) =>
    case OrderMovedStep(_, _) =>
    case _ =>
  }

  lemma MeterKeepsLinks(s: System, db: Db)
    requires ReceiptsPaidFor(s) && PaidHasReceipt(s) && SameSales(s.db, db)
    ensures ReceiptsPaidFor(s.(db := db)) && PaidHasReceipt(s.(db := db))
  {
  }

  // ---- rail steps that settle nothing ----------------------------------------------------------

  // A paid intent after the step was paid before it, and a performed transaction performed.
  ghost predicate NoNewPaid(a: Rows, b: Rows) {
    && (forall ref :: ref in b.intents && b.intents[ref].state == PAID ==> ref in a.intents && a.intents[ref].state == PAID)
    && (forall id :: id in b.txs && b.txs[id].state == PERFORMED ==> id in a.txs && a.txs[id].state == PERFORMED)
  }

  lemma ReleaseSettlesNothing(r: Rows, id: TxId, reason: int, now: int)
    requires id in r.txs
    ensures NoNewPaid(r, CancelAndRelease(r, id, reason, now))
  {
  }

  lemma NoNewPaidTransitive(a: Rows, b: Rows, c: Rows)
    requires NoNewPaid(a, b) && NoNewPaid(b, c)
    ensures NoNewPaid(a, c)
  {
  }

  lemma NothingPaidByWaiting(r: Rows)
    ensures NoNewPaid(r, r)
  {
  }

  lemma ExpirySettlesNothing(r: Rows, ref: Ref, now: int)
    ensures NoNewPaid(r, ExpireIntent(r, ref, now).1)
  {
  }

  lemma {:induction false} SweepsSettleNothing(r: Rows, refs: seq<Ref>, ids: seq<TxId>, now: int, c: Config)
    ensures NoNewPaid(r, ExpireAll(r, refs, now).1) && NoNewPaid(r, TimeOutAll(r, ids, now, c))
    decreases |refs| + |ids|
  {
    hide CancelAndRelease, ExpireIntent, NoNewPaid;
    NothingPaidByWaiting(r);
    if refs != [] {
      SweepsSettleNothing(r, refs[..|refs| - 1], [], now, c);
      var swept := ExpireAll(r, refs[..|refs| - 1], now).1;
      ExpirySettlesNothing(swept, refs[|refs| - 1], now);
      NoNewPaidTransitive(r, swept, ExpireIntent(swept, refs[|refs| - 1], now).1);
    }
    if ids != [] {
      SweepsSettleNothing(r, [], ids[..|ids| - 1], now, c);
      var swept, id := TimeOutAll(r, ids[..|ids| - 1], now, c), ids[|ids| - 1];
      if id in swept.txs {
        ReleaseSettlesNothing(swept, id, TIMEOUT_REASON, now);
        NoNewPaidTransitive(r, swept, TimeOut(swept, id, now));
      }
    }
  }

  lemma PlainMoveSettlesNothing(r: Rows, move: RailStep, now: int)
    requires move.OpenStep? || move.NotifyStep? || move.ResumeStep? || move.ForgetBuyerStep? || move.PurgeStep?
    ensures NoNewPaid(r, Move(r, move, now))
  {
    hide Create, Perform, Cancel, ForceSettle, ExpireAll, TimeOutAll;
  }

  lemma MoveSettlesNothing(r: Rows, move: RailStep, now: int)
    requires !move.PerformStep? && !move.ForceSettleStep?
    ensures NoNewPaid(r, Move(r, move, now))
  {
    hide CancelAndRelease, ExpireAll, TimeOutAll, Open, MarkNotified, ClaimResume, ForgetBuyer, Purge;
    match move
    case CreateStep(call, c) => if call.id in r.txs { ReleaseSettlesNothing(r, call.id, TIMEOUT_REASON, now); }
    case CancelStep(id, reason) => if id in r.txs { ReleaseSettlesNothing(r, id, reason, now); }
    case ExpireStep(refs) => SweepsSettleNothing(r, refs, [], now, Config("", 0));
    case TimeOutStep(ids, c) => SweepsSettleNothing(r, [], ids, now, c);
    case _ => PlainMoveSettlesNothing(r, move, now);
  }

  lemma PaidStaysIndexed(a: Rows, b: Rows, k: Key)
    requires RailInv(a) && RailInv(b) && Grows(a, b) && IsPaid(a, k)
    ensures IsPaid(b, k) && b.index[k] == a.index[k] && b.intents[b.index[k]].amount == a.intents[a.index[k]].amount
  {
    assert a.intents[a.index[k]].key == k;
  }

  lemma QuietRailKeepsLinks(s: System, rail: Rows)
    requires ReceiptsPaidFor(s) && PaidHasReceipt(s) && RailInv(s.rail) && RailInv(rail)
    requires Grows(s.rail, rail) && NoNewPaid(s.rail, rail)
    ensures ReceiptsPaidFor(s.(rail := rail)) && PaidHasReceipt(s.(rail := rail))
  {
    forall k | IsPaid(s.rail, k)
      ensures IsPaid(rail, k) && rail.index[k] == s.rail.index[k]
        && rail.intents[rail.index[k]].amount == s.rail.intents[s.rail.index[k]].amount
    {
      PaidStaysIndexed(s.rail, rail, k);
    }
    hide RailInv;
  }

  // ---- settlements -----------------------------------------------------------------------------

  /** What a settling call pays: one intent, newly or (after an operator) already paid. */
  ghost predicate Settles(a: Rows, b: Rows, ref: Ref, sale: Option<Sale>) {
    && ref in a.intents && ref in b.intents && b.intents[ref].state == PAID
    && (forall other :: other in b.intents && other != ref ==> other in a.intents && b.intents[other] == a.intents[other])
    && (sale.Some? <==> b.intents[ref].user.Some?)
    && (sale.Some? ==> sale.value.key == b.intents[ref].key && sale.value.purchase.amount == b.intents[ref].amount
                       && sale.value.purchase.isPaid && sale.value.purchase.product == b.intents[ref].product
                       && sale.value.user == b.intents[ref].user.value)
    && (sale.None? ==> b.intents[ref].note == Some(RailNote) || a.intents[ref].state == PAID)
  }

  lemma SettleIsOne(r: Rows, id: TxId, now: int, c: Config)
    requires RailInv(r) && id in r.txs && r.txs[id].state == CREATED && Settle(r, id, now, c).0.Answer?
    ensures var (_, after, sale) := Settle(r, id, now, c); Settles(r, after, r.txs[id].intent, sale)
  {
    assert TxHolds(r, id);
  }

  lemma ForceSettleIsOne(r: Rows, ref: Ref, text: string, now: int)
    requires RailInv(r) && ForceSettle(r, ref, text, now).2.Some?
    ensures var (_, after, sale) := ForceSettle(r, ref, text, now); Settles(r, after, ref, sale)
  {
  }

  // The sale's receipts: nothing else is touched, and the single one is certain.
  ghost predicate SaleRecorded(a: Db, b: Db, sale: Sale) {
    && (forall k :: k in b.topups ==>
          if k in a.topups then b.topups[k] == a.topups[k]
          else k == sale.key && b.topups[k].amount == sale.purchase.amount)
    && (forall k :: k in a.topups ==> k in b.topups)
    && |a.plans| <= |b.plans| <= |a.plans| + 1 && b.plans[..|a.plans|] == a.plans
    && (|b.plans| > |a.plans| ==> b.plans[|a.plans|].key == sale.key && b.plans[|a.plans|].amount == sale.purchase.amount)
    && (sale.key.SingleSale? ==> sale.key in b.topups)
  }

  lemma SaleIsRecorded(db: Db, sale: Sale, now: int)
    requires WriteSale(db, sale, now).0
    ensures SaleRecorded(db, WriteSale(db, sale, now).1, sale)
  {
    hide KeysOf, PickPlan;
  }

  lemma SaleKeepsMeter(db: Db, sale: Sale, now: int, p: Policy)
    requires Inv(db, now, p)
    ensures Inv(WriteSale(db, sale, now).1, now, p)
  {
    hide Inv;
    match sale.key
    case SingleSale(tail) => SingleSaleKeeps(db, sale.user, sale.purchase, tail, now, p);
    case PlanSale(tail) =>
      if sale.songs.Some? && sale.days.Some? {
        PlanSaleKeeps(db, sale.user, sale.purchase, sale.songs.value, sale.days.value, tail, now, p);
      }
    case _ =>
  }

  lemma IndexFinds(r: Rows, ref: Ref)
    requires RailInv(r) && ref in r.intents
    ensures r.intents[ref].key in r.index && r.index[r.intents[ref].key] == ref
  {
  }

  lemma SettlementKeepsReceipts(s: System, rail: Rows, db: Db, ref: Ref, sale: Option<Sale>)
    requires ReceiptsPaidFor(s) && RailInv(s.rail) && RailInv(rail)
    requires Grows(s.rail, rail) && Settles(s.rail, rail, ref, sale)
    requires if sale.Some? then SaleRecorded(s.db, db, sale.value) else db == s.db
    ensures ReceiptsPaidFor(System(db, rail))
  {
    hide RailInv, Grows;
    forall k | IsPaid(s.rail, k)
      ensures IsPaid(rail, k) && rail.index[k] == s.rail.index[k]
        && rail.intents[rail.index[k]].amount == s.rail.intents[s.rail.index[k]].amount
    {
      PaidStaysIndexed(s.rail, rail, k);
    }
    IndexFinds(rail, ref);
    forall i | 0 <= i < |db.plans|
      ensures IsPaid(rail, db.plans[i].key) && db.plans[i].amount == rail.intents[rail.index[db.plans[i].key]].amount
    {
      if i < |s.db.plans| { assert db.plans[i] == db.plans[..|s.db.plans|][i] == s.db.plans[i]; }
    }
  }

  lemma SettlementKeepsPaid(s: System, rail: Rows, db: Db, ref: Ref, sale: Option<Sale>)
    requires PaidHasReceipt(s) && RailInv(rail) && Grows(s.rail, rail) && Settles(s.rail, rail, ref, sale)
    requires if sale.Some? then SaleRecorded(s.db, db, sale.value) else db == s.db
    ensures PaidHasReceipt(System(db, rail))
  {
    assert IntentShape(rail.intents[ref]);
    hide RailInv;
  }

  lemma CommitKeeps<T>(s: System, reply: Reply<T>, rail: Rows, ref: Ref, sale: Option<Sale>, now: int, p: Policy)
    requires SystemInv(s, now, p) && RailInv(rail) && Grows(s.rail, rail) && Settles(s.rail, rail, ref, sale)
    ensures SystemInv(Commit(s, reply, rail, sale, now).1, now, p)
  {
    hide Inv, RailInv, Grows, Settles, ReceiptsPaidFor, PaidHasReceipt, SaleRecorded;
    if sale.None? {
      SettlementKeepsReceipts(s, rail, s.db, ref, sale);
      SettlementKeepsPaid(s, rail, s.db, ref, sale);
    } else {
      var (written, db) := WriteSale(s.db, sale.value, now);
      if written {
        SaleKeepsMeter(s.db, sale.value, now, p);
        SaleIsRecorded(s.db, sale.value, now);
        SettlementKeepsReceipts(s, rail, db, ref, sale);
        SettlementKeepsPaid(s, rail, db, ref, sale);
      }
    }
  }

  lemma PerformCallKeeps(s: System, id: TxId, now: int, c: Config, p: Policy)
    requires SystemInv(s, now, p)
    ensures SystemInv(PerformCall(s, id, now, c).1, now, p)
  {
    hide Inv, RailInv, Grows, ReceiptsPaidFor, PaidHasReceipt, Settle, CancelAndRelease, Commit, Settles;
    PerformKeeps(s.rail, id, now, c);
    PerformGrows(s.rail, id, now, c);
    var (reply, rail, sale) := Perform(s.rail, id, now, c);
    if id in s.rail.txs && s.rail.txs[id].state == CREATED {
      if !IsExpired(s.rail.txs[id].paymeTime, now, c.timeoutMs) {
        if reply.Answer? {
          SettleIsOne(s.rail, id, now, c);
          CommitKeeps(s, reply, rail, s.rail.txs[id].intent, sale, now, p);
        } else {
          RefusedSettleChangesNothing(s.rail, id, now, c);
          CommitNothing(s, reply, rail, now);
        }
      } else {
        ReleaseSettlesNothing(s.rail, id, TIMEOUT_REASON, now);
        QuietRailKeepsLinks(s, rail);
        CommitNothing(s, reply, rail, now);
      }
    } else {
      CommitNothing(s, reply, rail, now);
    }
  }

  lemma RefusedSettleChangesNothing(r: Rows, id: TxId, now: int, c: Config)
    requires id in r.txs && r.txs[id].state == CREATED && Settle(r, id, now, c).0.Refused?
    ensures Settle(r, id, now, c).1 == r && Settle(r, id, now, c).2.None?
  {
  }

  lemma CommitNothing<T>(s: System, reply: Reply<T>, rail: Rows, now: int)
    ensures Commit(s, reply, rail, None, now) == (reply, s.(rail := rail))
  {
  }

  lemma SettleByHandKeeps(s: System, ref: Ref, text: string, now: int, p: Policy)
    requires SystemInv(s, now, p)
    ensures SystemInv(SettleByHand(s, ref, text, now).1, now, p)
  {
    hide Inv, RailInv, Grows, ReceiptsPaidFor, PaidHasReceipt, Commit, Settles;
    ForceSettleKeeps(s.rail, ref, text, now);
    MarksGrow(s.rail, ref, text, now);
    var (reply, rail, sale) := ForceSettle(s.rail, ref, text, now);
    if sale.Some? {
      ForceSettleIsOne(s.rail, ref, text, now);
      CommitKeeps(s, reply, rail, ref, sale, now, p);
    } else {
      CommitNothing(s, reply, rail, now);
    }
  }

  lemma EraseKeeps(s: System, u: User, now: int, p: Policy)
    requires SystemInv(s, now, p)
    ensures SystemInv(Erase(s, u), now, p)
  {
    hide Inv, RailInv, ReceiptsPaidFor, PaidHasReceipt, Grows, NoNewPaid, ForgetTx, ForgetBuyer;
    ForgetKeeps(s.db, u, now, p);
    ForgetBuyerKeeps(s.rail, u);
    ErasureGrows(s.rail, u);
    MoveSettlesNothing(s.rail, ForgetBuyerStep(u), now);
    QuietRailKeepsLinks(s, ForgetBuyer(s.rail, u));
    ForgetKeepsLinks(s.(rail := ForgetBuyer(s.rail, u)), u);
  }

  lemma ForgetKeepsLinks(s: System, u: User)
    requires ReceiptsPaidFor(s) && PaidHasReceipt(s)
    ensures ReceiptsPaidFor(s.(db := ForgetTx(s.db, u))) && PaidHasReceipt(s.(db := ForgetTx(s.db, u)))
  {
  }

  lemma NextKeeps(s: System, step: SystemStep, clock: int, now: int, p: Policy)
    requires p.Valid() && SystemInv(s, clock, p) && clock <= now && May(s, step, now)
    ensures SystemInv(Next(s, step, now, p), now, p)
  {
    hide Inv, RailInv, Grows, ReceiptsPaidFor, PaidHasReceipt, Apply, Move, PerformCall, SettleByHand;
    hide SameSales, NoNewPaid, Erase;
    TimePasses(s.db, clock, now, p);
    match step
    case Meter(m) =>
      StepKeeps(s.db, m, clock, now, p);
      MeterLeavesSales(s, m, now, p);
      MeterKeepsLinks(s, Apply(s.db, m, now, p));
    case OnRail(m) =>
      MoveKeeps(s.rail, m, now);
      MoveGrows(s.rail, m, now);
      MoveSettlesNothing(s.rail, m, now);
      QuietRailKeepsLinks(s, Move(s.rail, m, now));
    case PerformArrives(id, c) => PerformCallKeeps(s, id, now, c, p);
    case OperatorSettles(ref, text) => SettleByHandKeeps(s, ref, text, now, p);
    case ForgetArrives(u) => EraseKeeps(s, u, now, p);
  }

  // ---- runs ------------------------------------------------------------------------------------

  datatype At = At(now: int, step: SystemStep)

  ghost predicate IsSystemRun(states: seq<System>, steps: seq<At>, start: int, p: Policy) {
    && p.Valid() && |states| == |steps| + 1
    && (forall i :: 0 <= i < |steps| ==>
          && Clock(steps, start, i) <= steps[i].now
          && May(states[i], steps[i].step, steps[i].now)
          && states[i + 1] == Next(states[i], steps[i].step, steps[i].now, p))
  }

  function Clock(steps: seq<At>, start: int, i: nat): int
    requires i <= |steps|
  {
    if i == 0 then start else steps[i - 1].now
  }

  /** Any mixture of charges, refunds, rail calls, operators, sweeps and erasures keeps it all. */
  lemma {:induction false} SystemRunKeeps(states: seq<System>, steps: seq<At>, start: int, p: Policy, i: nat)
    requires IsSystemRun(states, steps, start, p) && SystemInv(states[0], start, p) && i <= |steps|
    ensures SystemInv(states[i], Clock(steps, start, i), p)
  {
    hide SystemInv, Next, May;
    if i > 0 {
      SystemRunKeeps(states, steps, start, p, i - 1);
      NextKeeps(states[i - 1], steps[i - 1].step, Clock(steps, start, i - 1), steps[i - 1].now, p);
    }
  }
}
