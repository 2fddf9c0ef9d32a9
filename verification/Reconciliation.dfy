/**
 * What the settlement counters may be trusted to say: which settlements write a receipt,
 * and by how much performed transactions, operator settlements and receipts can differ
 * over a window.
 */
module Reconciliation {
  import opened Counting
  import opened Option
  import opened Keys
  import opened Ledger
  import opened LedgerHistory
  import opened LedgerInvariant
  import opened Rail
  import opened RailInvariant
  import opened Settlement

  // ---- one settlement -----------------------------------------------------------------------

  predicate RefIsPaid(r: Rows, ref: Ref) { ref in r.intents && r.intents[ref].state == PAID }

  predicate IsPerformed(r: Rows, id: TxId) { id in r.txs && r.txs[id].state == PERFORMED }

  /**
   * A settling perform leaves a receipt behind exactly when the buyer is known and either
   * bought a single song, or bought a plan whose receipt exists already or whom no other
   * plan covers at that instant.
   */
  lemma PerformWritesReceiptIff(s: System, id: TxId, now: int, c: Config, clock: int, p: Policy)
    requires SystemInv(s, clock, p) && id in s.rail.txs && s.rail.txs[id].state == CREATED
    requires PerformCall(s, id, now, c).0.Answer?
    ensures s.rail.txs[id].intent in s.rail.intents
    ensures var i := s.rail.intents[s.rail.txs[id].intent];
      var after := PerformCall(s, id, now, c).1;
      && RefIsPaid(after.rail, s.rail.txs[id].intent) && IsPerformed(after.rail, id)
      && (HasReceipt(after.db, i.key) <==>
            HasReceipt(s.db, i.key)
            || (i.user.Some? && (i.product == SINGLE || CurrentPlan(s.db, i.user.value, now).None?)))
  {
    hide Inv, RailInv, ReceiptsPaidFor, PaidHasReceipt, Perform, HasReceipt, WriteSale, Settle, CurrentPlan;
    TxOpens(s.rail, id);
    ExpiredIsRefused(s.rail, id, now, c);
    SettleFlips(s.rail, id, now, c);
    var (reply, rail, sale) := Perform(s.rail, id, now, c);
    if sale.Some? {
      SaleWritesReceiptIff(s.db, sale.value, now);
    }
  }

  lemma ExpiredIsRefused(r: Rows, id: TxId, now: int, c: Config)
    requires id in r.txs && r.txs[id].state == CREATED
    ensures if IsExpired(r.txs[id].paymeTime, now, c.timeoutMs)
      then Perform(r, id, now, c).0.Refused? && Perform(r, id, now, c).2.None?
      else Perform(r, id, now, c) == Settle(r, id, now, c)
  {
  }

  lemma SettleFlips(r: Rows, id: TxId, now: int, c: Config)
    requires id in r.txs && r.txs[id].state == CREATED && r.txs[id].intent in r.intents
    ensures var ref, i := r.txs[id].intent, r.intents[r.txs[id].intent];
      var (reply, after, sale) := Settle(r, id, now, c);
      reply.Answer? ==>
        && ref in after.intents && after.intents[ref].state == PAID
        && id in after.txs && after.txs[id].state == PERFORMED
        && (sale.Some? <==> i.user.Some?)
        && (sale.Some? ==> sale.value.key == i.key && sale.value.user == i.user.value)
  {
  }

  lemma TxOpens(r: Rows, id: TxId)
    requires RailInv(r) && id in r.txs && r.txs[id].state == CREATED
    ensures r.txs[id].intent in r.intents && r.intents[r.txs[id].intent].active == Some(id)
    ensures IntentShape(r.intents[r.txs[id].intent])
  {
    assert TxHolds(r, id);
  }

  lemma SaleWritesReceiptIff(db: Db, sale: Sale, now: int)
    requires WriteSale(db, sale, now).0
    ensures HasReceipt(WriteSale(db, sale, now).1, sale.key)
       <==> HasReceipt(db, sale.key) || sale.key.SingleSale? || CurrentPlan(db, sale.user, now).None?
  {
    hide KeysOf, PickPlan;
    var after := WriteSale(db, sale, now).1;
    if sale.key.PlanSale? && |after.plans| > |db.plans| {
      assert after.plans[|db.plans|].key == sale.key;
    }
  }

  /** Only a settlement writes receipts: no other step adds one, and erasure removes none. */
  lemma OnlySettlementsWriteReceipts(s: System, step: SystemStep, now: int, p: Policy, k: Key)
    requires p.Valid() && May(s, step, now) && !step.PerformArrives? && !step.OperatorSettles?
    ensures HasReceipt(Next(s, step, now, p).db, k) <==> HasReceipt(s.db, k)
  {
    hide Apply, Move;
    var after := Next(s, step, now, p).db;
    if step.Meter? { MeterLeavesSales(s, step.step, now, p); }
    assert |after.plans| == |s.db.plans| && forall i :: 0 <= i < |after.plans| ==> after.plans[i].key == s.db.plans[i].key;
  }

  /** Receipts and grants of single songs stand or fall together, one of each per key. */
  lemma ReceiptIffGrant(s: System, k: Key, clock: int, p: Policy)
    requires SystemInv(s, clock, p) && k.SingleSale?
    ensures k in s.db.topups <==> exists i :: 0 <= i < |s.db.ledger| && s.db.ledger[i].key == k
    ensures forall i :: 0 <= i < |s.db.ledger| && s.db.ledger[i].key == k ==>
              s.db.ledger[i].kind == GRANT && s.db.ledger[i].delta == TOPUP_CREDITS
    ensures var l := s.db.ledger;
      forall i, j :: 0 <= i < |l| && 0 <= j < |l| && l[i].key == k == l[j].key ==> i == j
  {
    hide RailInv, ReceiptsPaidFor, PaidHasReceipt, RowsInv, BooksInv, PlansInv, SalesInv;
    SalesAreTold(s.db, k, clock, p);
  }

  lemma SalesAreTold(db: Db, k: Key, clock: int, p: Policy)
    requires Inv(db, clock, p) && k.SingleSale?
    ensures k in db.topups <==> k in KeysOf(db.ledger)
    ensures Unique(db.ledger)
    ensures forall i :: 0 <= i < |db.ledger| && db.ledger[i].key == k ==>
              db.ledger[i].kind == GRANT && db.ledger[i].delta == TOPUP_CREDITS
  {
    hide BooksInv, PlansInv, Dated, CoversPaired, Capped, Legal, KeysOf;
    assert k in db.topups <==> k in KeysOf(db.ledger);
    forall i | 0 <= i < |db.ledger| && db.ledger[i].key == k
      ensures db.ledger[i].kind == GRANT && db.ledger[i].delta == TOPUP_CREDITS
    {
      assert Shape(db.ledger[i], p);
    }
  }

  // A fulfilled single song is paid, at its price; a paid one is fulfilled unless its buyer is gone and the rail paid.
  lemma PaidIffFulfilled(s: System, ref: Ref, clock: int, p: Policy)
    requires SystemInv(s, clock, p) && ref in s.rail.intents && s.rail.intents[ref].product == SINGLE
    ensures var i := s.rail.intents[ref];
      && (i.key in s.db.topups ==> i.state == PAID && s.db.topups[i.key].amount == i.amount)
      && (i.state == PAID && (i.user.Some? || i.note != Some(RailNote)) ==> i.key in s.db.topups)
  {
    IndexFinds(s.rail, ref);
    hide Inv, RailInv;
  }

  // ---- a window ----------------------------------------------------------------------------------

  predicate Within(at: Option<int>, from: int, to: int) {
    at.Some? && from <= at.value <= to
  }

  function SettledIn(s: System, from: int, to: int): set<Ref> {
    set ref | ref in s.rail.intents && s.rail.intents[ref].state == PAID && Within(s.rail.intents[ref].settledAt, from, to)
  }

  predicate ByRail(s: System, ref: Ref) { ref in s.rail.intents && s.rail.intents[ref].note == Some(RailNote) }

  predicate Fulfilled(s: System, ref: Ref) { ref in s.rail.intents && HasReceipt(s.db, s.rail.intents[ref].key) }

  /** Transactions performed in the window. */
  function PerformedIn(s: System, from: int, to: int): set<TxId> {
    set id | id in s.rail.txs && s.rail.txs[id].state == PERFORMED && Within(s.rail.txs[id].performTime, from, to)
  }

  /** Intents an operator settled in the window. */
  function ByHandIn(s: System, from: int, to: int): set<Ref> {
    set ref | ref in SettledIn(s, from, to) && !ByRail(s, ref)
  }

  function SettledKeys(s: System, from: int, to: int): set<Key> {
    set ref | ref in SettledIn(s, from, to) :: s.rail.intents[ref].key
  }

  function TopupsIn(s: System, from: int, to: int): set<Key> {
    set k | k in s.db.topups && k in SettledKeys(s, from, to)
  }

  function PlansIn(s: System, from: int, to: int): set<int> {
    set i | 0 <= i < |s.db.plans| && s.db.plans[i].key in SettledKeys(s, from, to)
  }

  function GrantsIn(s: System, from: int, to: int): set<int> {
    set i | 0 <= i < |s.db.ledger| && s.db.ledger[i].kind == GRANT && s.db.ledger[i].key in SettledKeys(s, from, to)
  }

  function ReceiptsIn(s: System, from: int, to: int): nat {
    |TopupsIn(s, from, to)| + |PlansIn(s, from, to)|
  }

  /** Settlements of the window that no receipt answers for. */
  function MissingIn(s: System, from: int, to: int): set<Ref> {
    set ref | ref in SettledIn(s, from, to) && !Fulfilled(s, ref)
  }

  /** Performs of the window that reached an intent an operator had already paid. */
  function LateIn(s: System, from: int, to: int): set<TxId> {
    set id | id in PerformedIn(s, from, to) && !ByRail(s, s.rail.txs[id].intent)
  }

  // ---- counting ------------------------------------------------------------------------------------

  lemma PerformedMatchesRailPaid(s: System, from: int, to: int)
    requires RailInv(s.rail)
    ensures |PerformedIn(s, from, to) - LateIn(s, from, to)| == |SettledIn(s, from, to) - ByHandIn(s, from, to)|
  {
    var r := s.rail;
    var a, b := PerformedIn(s, from, to) - LateIn(s, from, to), SettledIn(s, from, to) - ByHandIn(s, from, to);
    var f := (id: TxId) => if id in r.txs then r.txs[id].intent else "";
    forall id | id in a ensures f(id) in b && r.intents[f(id)].active == Some(id) {
      assert TxHolds(r, id) && HolderAnswers(r, r.txs[id].intent);
    }
    forall ref | ref in b ensures exists id :: id in a && f(id) == ref {
      assert HolderAnswers(r, ref) && IntentShape(r.intents[ref]);
      assert r.intents[ref].active.value in a;
    }
    ImageSize(a, b, f);
  }

  lemma PlanRowsMatchKeys(s: System, from: int, to: int, clock: int, p: Policy)
    requires Inv(s.db, clock, p)
    ensures |PlansIn(s, from, to)| == |set i | i in PlansIn(s, from, to) && 0 <= i < |s.db.plans| :: s.db.plans[i].key|
  {
    var plans := s.db.plans;
    var a := PlansIn(s, from, to);
    var b := set i | i in a && 0 <= i < |plans| :: plans[i].key;
    var f := (i: int) => if 0 <= i < |plans| then plans[i].key else PlanSale("");
    forall y | y in b ensures exists x :: x in a && f(x) == y {
      var i :| i in a && 0 <= i < |plans| && plans[i].key == y;
      assert f(i) == y;
    }
    ImageSize(a, b, f);
  }

  lemma KeysOfSales(s: System, clock: int, p: Policy)
    requires SystemInv(s, clock, p)
    ensures Indexed(s.rail)
    ensures forall k :: k in s.db.topups ==> k.SingleSale?
    ensures forall i :: 0 <= i < |s.db.plans| ==> s.db.plans[i].key.PlanSale?
  {
  }

  // The keys of the receipts under settled intents, whichever table they are in.
  function ReceiptKeys(s: System, from: int, to: int): set<Key> {
    TopupsIn(s, from, to) + set i | i in PlansIn(s, from, to) && 0 <= i < |s.db.plans| :: s.db.plans[i].key
  }

  lemma ReceiptKeysTell(s: System, from: int, to: int, k: Key)
    ensures k in ReceiptKeys(s, from, to) <==> k in SettledKeys(s, from, to) && HasReceipt(s.db, k)
  {
    if k in SettledKeys(s, from, to) && HasPlanKey(s.db.plans, k) {
      var i :| 0 <= i < |s.db.plans| && s.db.plans[i].key == k;
      assert i in PlansIn(s, from, to);
    }
  }

  lemma FulfilledMatchKeys(s: System, from: int, to: int)
    requires Indexed(s.rail)
    ensures |SettledIn(s, from, to) - MissingIn(s, from, to)| == |ReceiptKeys(s, from, to)|
  {
    hide ReceiptKeys, HasReceipt;
    var r := s.rail;
    var a, b := SettledIn(s, from, to) - MissingIn(s, from, to), ReceiptKeys(s, from, to);
    var f := (ref: Ref) => if ref in r.intents then r.intents[ref].key else PlanSale("");
    forall ref | ref in a ensures f(ref) in b {
      assert f(ref) in SettledKeys(s, from, to);
      ReceiptKeysTell(s, from, to, f(ref));
    }
    forall k | k in b ensures exists ref :: ref in a && f(ref) == k {
      ReceiptKeysTell(s, from, to, k);
      var ref :| ref in SettledIn(s, from, to) && r.intents[ref].key == k;
      assert ref in a && f(ref) == k;
    }
    ImageSize(a, b, f);
  }

  lemma FulfilledMatchReceipts(s: System, from: int, to: int, clock: int, p: Policy)
    requires SystemInv(s, clock, p)
    ensures |SettledIn(s, from, to) - MissingIn(s, from, to)| == ReceiptsIn(s, from, to)
  {
    hide Inv, RailInv, ReceiptsPaidFor, PaidHasReceipt, SettledIn, MissingIn, SettledKeys;
    KeysOfSales(s, clock, p);
    FulfilledMatchKeys(s, from, to);
    PlanRowsMatchKeys(s, from, to, clock, p);
    var planKeys := set i | i in PlansIn(s, from, to) && 0 <= i < |s.db.plans| :: s.db.plans[i].key;
    AddSizes(TopupsIn(s, from, to), planKeys);
  }

  /**
   * The settlement identity, with the two terms its comments leave out. Over any window of
   * any reachable state: performed transactions plus operator settlements are receipts plus
   * settlements without a receipt plus late performs.
   */
  lemma SettlementIdentity(s: System, from: int, to: int, clock: int, p: Policy)
    requires SystemInv(s, clock, p)
    ensures |PerformedIn(s, from, to)| + |ByHandIn(s, from, to)|
         == ReceiptsIn(s, from, to) + |MissingIn(s, from, to)| + |LateIn(s, from, to)|
  {
    hide Inv, RailInv, ReceiptsPaidFor, PaidHasReceipt, PerformedIn, LateIn, SettledIn, ByHandIn, MissingIn, ReceiptsIn;
    PerformedMatchesRailPaid(s, from, to);
    FulfilledMatchReceipts(s, from, to, clock, p);
    PartsOfTheWindow(s, from, to);
    PeelSize(SettledIn(s, from, to), ByHandIn(s, from, to));
    PeelSize(SettledIn(s, from, to), MissingIn(s, from, to));
    PeelSize(PerformedIn(s, from, to), LateIn(s, from, to));
  }

  lemma PartsOfTheWindow(s: System, from: int, to: int)
    ensures ByHandIn(s, from, to) <= SettledIn(s, from, to) && MissingIn(s, from, to) <= SettledIn(s, from, to)
    ensures LateIn(s, from, to) <= PerformedIn(s, from, to)
  {
  }

  /**
   * The equality the counters assert holds if and only if no settlement of the window is
   * without its receipt and no perform of the window was late; and receipts never exceed
   * settlements, wherever the window is cut.
   */
  lemma IdentityHoldsExactlyWhen(s: System, from: int, to: int, clock: int, p: Policy)
    requires SystemInv(s, clock, p)
    ensures |PerformedIn(s, from, to)| + |ByHandIn(s, from, to)| == ReceiptsIn(s, from, to)
       <==> (forall ref :: ref in SettledIn(s, from, to) ==> Fulfilled(s, ref))
            && (forall id :: id in PerformedIn(s, from, to) ==> ByRail(s, s.rail.txs[id].intent))
    ensures ReceiptsIn(s, from, to) <= |PerformedIn(s, from, to)| + |ByHandIn(s, from, to)|
  {
    hide *;
    SettlementIdentity(s, from, to, clock, p);
    NothingMissing(s, from, to);
    NothingLate(s, from, to);
  }

  lemma NothingMissing(s: System, from: int, to: int)
    ensures |MissingIn(s, from, to)| == 0 <==> forall ref :: ref in SettledIn(s, from, to) ==> Fulfilled(s, ref)
  {
    hide SettledIn, Fulfilled;
    assert forall ref :: ref in SettledIn(s, from, to) && !Fulfilled(s, ref) ==> ref in MissingIn(s, from, to);
  }

  lemma NothingLate(s: System, from: int, to: int)
    ensures |LateIn(s, from, to)| == 0
       <==> forall id :: id in PerformedIn(s, from, to) ==> ByRail(s, s.rail.txs[id].intent)
  {
    hide ByRail;
    assert forall id :: id in PerformedIn(s, from, to) && !ByRail(s, s.rail.txs[id].intent) ==> id in LateIn(s, from, to);
  }

  /** Grants are the single-song receipts of the window, one for one. */
  lemma GrantsAreSingleReceipts(s: System, from: int, to: int, clock: int, p: Policy)
    requires SystemInv(s, clock, p)
    ensures |GrantsIn(s, from, to)| == |TopupsIn(s, from, to)|
  {
    hide Inv, RailInv, KeysOf, SettledKeys, ReceiptsPaidFor, PaidHasReceipt, Within;
    var l := s.db.ledger;
    var a, b := GrantsIn(s, from, to), TopupsIn(s, from, to);
    var f := (i: int) => if 0 <= i < |l| then l[i].key else PlanSale("");
    SettledKeysAreSales(s, from, to);
    forall i | i in a ensures f(i) in b {
      SaleRowsAreTopups(s.db, i, clock, p);
    }
    forall k | k in b ensures exists i :: i in a && f(i) == k {
      var i := TopupRow(s.db, k, clock, p);
      assert i in a && f(i) == k;
    }
    forall i, j | i in a && j in a && f(i) == f(j) ensures i == j {
      RowsAreUnique(s.db, i, j, clock, p);
    }
    ImageSize(a, b, f);
  }

  lemma SaleRowsAreTopups(db: Db, i: nat, clock: int, p: Policy)
    requires Inv(db, clock, p) && i < |db.ledger| && (db.ledger[i].key.SingleSale? || db.ledger[i].key.PlanSale?)
    ensures db.ledger[i].key in db.topups
  {
    hide BooksInv, PlansInv, Dated, CoversPaired, Capped, Legal, Unique;
    assert Shape(db.ledger[i], p);
    InKeys(db.ledger, i);
  }

  lemma TopupRow(db: Db, k: Key, clock: int, p: Policy) returns (i: nat)
    requires Inv(db, clock, p) && k in db.topups
    ensures i < |db.ledger| && db.ledger[i].key == k && db.ledger[i].kind == GRANT
  {
    hide BooksInv, PlansInv, Dated, CoversPaired, Capped, Legal, Unique;
    assert k in KeysOf(db.ledger);
    i :| 0 <= i < |db.ledger| && db.ledger[i].key == k;
    assert Shape(db.ledger[i], p);
  }

  lemma RowsAreUnique(db: Db, i: nat, j: nat, clock: int, p: Policy)
    requires Inv(db, clock, p) && i < |db.ledger| && j < |db.ledger| && db.ledger[i].key == db.ledger[j].key
    ensures i == j
  {
    hide BooksInv, PlansInv, Dated, CoversPaired, Capped, Legal, Shapes;
  }

  lemma SettledKeysAreSales(s: System, from: int, to: int)
    requires RailInv(s.rail)
    ensures forall k :: k in SettledKeys(s, from, to) ==> k.SingleSale? || k.PlanSale?
  {
  }

  // ---- the verdict -----------------------------------------------------------------------------------

  datatype Verdict = NEVER_SETTLED | GRANTS_OVER_RECEIPTS | RECEIPTS_SHORT | RECEIPTS_OVER | BALANCED

  /** The panel's one word for a window, from its four counts. */
  function VerdictOf(performed: nat, byHand: nat, receipts: nat, grants: nat, everSettled: bool): Verdict {
    if !everSettled then NEVER_SETTLED
    else if grants > receipts then GRANTS_OVER_RECEIPTS
    else if performed + byHand > receipts then RECEIPTS_SHORT
    else if performed + byHand < receipts then RECEIPTS_OVER
    else BALANCED
  }

  /**
   * Once anything has settled, only two of the five verdicts can be given: balanced, or
   * short, and short exactly when a settlement lacks its receipt or a perform came late.
   * More receipts than settlements is no edge effect; it cannot happen.
   */
  lemma OnlyShortOrBalanced(s: System, from: int, to: int, clock: int, p: Policy)
    requires SystemInv(s, clock, p)
    ensures var v := VerdictOf(|PerformedIn(s, from, to)|, |ByHandIn(s, from, to)|, ReceiptsIn(s, from, to),
                               |GrantsIn(s, from, to)|, true);
      v == if MissingIn(s, from, to) == {} && LateIn(s, from, to) == {} then BALANCED else RECEIPTS_SHORT
  {
    hide SystemInv, PerformedIn, ByHandIn, GrantsIn, TopupsIn, PlansIn, MissingIn, LateIn;
    SettlementIdentity(s, from, to, clock, p);
    GrantsAreSingleReceipts(s, from, to, clock, p);
  }
}
