/** The life of one order on the ledger: charged, settled, charged again, erased meanwhile. */
module MeterOrders {
  import opened Option
  import opened Keys
  import opened Periods
  import opened Ledger
  import opened LedgerHistory
  import opened LedgerInvariant
  import opened MeterCharge

  // ---- what the rows of an order look like --------------------------------------------------

  lemma {:induction false} PrefixReplays(l: seq<Entry>, n: nat, o: Uuid)
    requires n <= |l| && Replay(l, o).Some?
    ensures Replay(l[..n], o).Some?
    decreases |l| - n
  {
    if n == |l| {
      assert l[..n] == l;
    } else {
      PrefixReplays(l, n + 1, o);
      assert l[..n + 1][..n] == l[..n];
    }
  }

  lemma PrefixIsHistory(l: seq<Entry>, n: nat, p: Policy)
    requires p.Valid() && History(l, p) && n <= |l|
    ensures History(l[..n], p)
  {
    forall o: Uuid ensures Replay(l[..n], o).Some? {
      assert Replay(l, o).Some?;
      PrefixReplays(l, n, o);
    }
  }

  // The machine's reading of the row at position i.
  lemma RowAdvances(l: seq<Entry>, i: nat, o: Uuid, p: Policy)
    requires p.Valid() && History(l, p) && i < |l| && l[i].order == Some(o)
    ensures Replay(l[..i], o).Some? && Advance(Replay(l[..i], o), l[i]).Some? && History(l[..i], p)
    ensures l[i].gen == Replay(l[..i], o).value.gen
  {
    PrefixIsHistory(l, i, p);
    PrefixIsHistory(l, i + 1, p);
    assert Replay(l[..i + 1], o).Some? && Replay(l[..i], o).Some?;
    assert l[..i + 1][..i] == l[..i];
  }

  /** At one price, every order's debits less its refunds are nothing or one render. */
  lemma {:induction false} NetIsNothingOrOneRender(l: seq<Entry>, o: Uuid, p: Policy, cost: int)
    requires p.Valid() && History(l, p)
    requires forall i :: 0 <= i < |l| && l[i].kind == DEBIT ==> l[i].delta == -cost
    ensures Net(l, o) == 0 || Net(l, o) == -cost
  {
    OrderStands(l, o, p);
    if l != [] {
      var n := |l| - 1;
      PrefixIsHistory(l, n, p);
      NetIsNothingOrOneRender(l[..n], o, p, cost);
      OrderStands(l[..n], o, p);
    }
  }

  /** Generation n+1 is debited only after generation n was debited and then refunded. */
  lemma GenerationsAlternate(l: seq<Entry>, i: nat, o: Uuid, g: nat, p: Policy)
    requires p.Valid() && History(l, p) && i < |l| && l[i].key == Debit(o, g + 1)
    ensures exists j, k :: 0 <= j < k < i && l[j].key == Debit(o, g) && l[k].key == Refund(o, g)
  {
    assert Shape(l[i], p);
    RowAdvances(l, i, o, p);
    ReplayTells(l[..i], o, p);
    var k :| 0 <= k < i && l[..i][k].key == Refund(o, g);
    assert Shape(l[k], p);
    RowAdvances(l, k, o, p);
    ReplayTells(l[..k], o, p);
    var j :| 0 <= j < k && l[..k][j].key == Debit(o, g);
    assert l[j].key == Debit(o, g) && l[k].key == Refund(o, g);
  }

  /** A generation with two settling rows was consumed first and refunded after. */
  lemma ConsumedBeforeRefunded(l: seq<Entry>, i: nat, j: nat, o: Uuid, g: nat, p: Policy)
    requires p.Valid() && History(l, p) && i < |l| && j < |l|
    requires l[i].key == Consume(o, g) && l[j].key == Refund(o, g)
    ensures i < j
  {
    assert Shape(l[i], p);
    RowAdvances(l, i, o, p);
    ReplayTells(l[..i], o, p);
    if j < i {
      InKeys(l[..i], j);
    }
  }

  // ---- charging -------------------------------------------------------------------------------

  /**
   * A retry of a charged order, at any later instant, with any plan read and past the cap,
   * is answered "already paid": nothing but a new window's allowance is written, the order
   * stands as it stood and the customer is shown what they would have been shown.
   */
  lemma ChargeIsIdempotent(db: Db, u: User, o: Uuid, cost: int, now: int, p: Policy, sight: Option<PlanSight>,
                           again: int, later: int, other: Option<PlanSight>)
    requires p.Valid() && Inv(db, now, p) && SightHolds(db, sight, now) && again >= 1 && now <= later
    requires ChargeTx(db, u, o, cost, now, p, sight).0.Charged?
    requires SightHolds(ChargeTx(db, u, o, cost, now, p, sight).1, other, later)
    ensures var after := ChargeTx(db, u, o, cost, now, p, sight).1;
      && ChargeTx(after, u, o, again, later, p, other)
         == (AlreadyPaid(ReadBalance(after, u, later, p, None)), Arrived(after, u, later, p))
      && Net(Arrived(after, u, later, p).ledger, o) == Net(after.ledger, o) == -cost
      && (PeriodIndex(later, p.periodDays) == PeriodIndex(now, p.periodDays) ==> Arrived(after, u, later, p) == after)
  {
    hide Inv, ReadBalance, SongTaken, Arrived, KeysOf, Net, Generation, PaidFromBalance, PaidInTheDark;
    var after := ChargeTx(db, u, o, cost, now, p, sight).1;
    ChargeKeeps(db, u, o, cost, now, p, sight);
    TimePasses(after, now, later, p);
    ChargeDecision(db, u, o, cost, now, p, sight);
    ChargedIsPaid(db, u, o, cost, now, p, sight);
    ChargeDecision(after, u, o, again, later, p, other);
    ArrivalIsInvisible(after, u, o, later, p, None);
    if PeriodIndex(later, p.periodDays) == PeriodIndex(now, p.periodDays) {
      SameWindowSameArrival(after, u, now, later, p);
    }
  }

  lemma SameWindowSameArrival(db: Db, u: User, now: int, later: int, p: Policy)
    requires p.Valid() && u in db.accounts && Arrived(db, u, now, p) == db
    requires PeriodIndex(later, p.periodDays) == PeriodIndex(now, p.periodDays)
    ensures Arrived(db, u, later, p) == db
  {
    hide KeysOf, PeriodIndex;
    assert |Arrived(db, u, now, p).ledger| == |db.ledger| + (if AllowanceDue(db, u, now, p) then 1 else 0);
  }

  lemma ArrivedOnce(db: Db, u: User, now: int, p: Policy)
    requires p.Valid()
    ensures u in Arrived(db, u, now, p).accounts && !AllowanceDue(Arrived(db, u, now, p), u, now, p)
  {
    hide KeysOf;
    var ready := Opened(db, u);
    Append(ready.ledger, AllowanceRow(ready, u, now, p));
  }

  // Later rows cannot make an allowance due again.
  lemma StaysArrived(a: Db, after: Db, u: User, now: int, p: Policy)
    requires p.Valid() && u in a.accounts && u in after.accounts && !AllowanceDue(a, u, now, p)
    requires after.accounts[u].period == a.accounts[u].period && KeysOf(a.ledger) <= KeysOf(after.ledger)
    ensures Arrived(after, u, now, p) == after
  {
    hide KeysOf;
  }

  lemma SongKeepsPeriod(db: Db, u: User, sight: Option<PlanSight>, now: int)
    requires u in db.accounts
    ensures var s := SongTaken(db, u, sight, now);
      s.accounts[u].period == db.accounts[u].period && s.blocked == db.blocked && KeysOf(db.ledger) <= KeysOf(s.ledger)
  {
    hide KeysOf;
    if WinsSong(db, sight) {
      Append(db.ledger, Entry(Some(u), GRANT, PLAN_SONG, 1, None, 0, PlanSong(sight.value.plan, sight.value.used), now));
    }
  }

  lemma PaymentKeepsPeriod(db: Db, u: User, o: Uuid, cost: int, now: int)
    requires u in db.accounts
    ensures forall after :: after in {PaidFromBalance(db, u, o, cost, now), PaidInTheDark(db, u, o, cost, now)} ==>
      && u in after.accounts && after.accounts[u].period == db.accounts[u].period && after.blocked == db.blocked
      && KeysOf(db.ledger) <= KeysOf(after.ledger) && Net(after.ledger, o) == Net(db.ledger, o) - cost
  {
    hide KeysOf, Net, Generation;
    var e := DebitRow(db, u, o, cost, now);
    Append(db.ledger, e);
    Append(db.ledger + [e], CoverRow(db, u, o, cost, now));
  }

  lemma ChargedIsPaid(db: Db, u: User, o: Uuid, cost: int, now: int, p: Policy, sight: Option<PlanSight>)
    requires p.Valid() && Inv(db, now, p) && SightHolds(db, sight, now)
    requires ChargeTx(db, u, o, cost, now, p, sight).0.Charged?
    ensures var after := ChargeTx(db, u, o, cost, now, p, sight).1;
      && Net(after.ledger, o) == -cost < 0 && u in after.accounts && after.blocked == db.blocked
      && Arrived(after, u, now, p) == after
  {
    hide Inv, KeysOf, PickPlan, OpenDebits, Net, Generation, AllowanceDue, SongTaken;
    RacedPath(db, u, o, now, p, sight);
    ArrivedOnce(db, u, now, p);
    var a := Arrived(db, u, now, p);
    var s := SongTaken(a, u, sight, now);
    HeldIsNothing(db, o, now, p);
    SongKeepsPeriod(a, u, sight, now);
    PaymentKeepsPeriod(s, u, o, cost, now);
    var after := ChargeTx(db, u, o, cost, now, p, sight).1;
    assert after in {PaidFromBalance(s, u, o, cost, now), PaidInTheDark(s, u, o, cost, now)};
    StaysArrived(a, after, u, now, p);
  }

  lemma HeldIsNothing(db: Db, o: Uuid, now: int, p: Policy)
    requires Inv(db, now, p)
    ensures Net(db.ledger, o) <= 0
  {
    OrderStands(db.ledger, o, p);
  }

  // ---- settling -------------------------------------------------------------------------------

  /** Exactly when a settlement writes: the order holds credit, and nobody has closed it that way. */
  lemma SettleWritesIff(db: Db, u: User, o: Uuid, outcome: Outcome, now: int, p: Policy)
    requires Inv(db, now, p)
    ensures var ph := Replay(db.ledger, o).value;
      SettleTx(db, u, o, outcome, now).0
      <==> ph.held > 0 && (if outcome.RENDER_FAILED? then u in db.accounts else !ph.consumed)
    ensures !SettleTx(db, u, o, outcome, now).0 ==> SettleTx(db, u, o, outcome, now).1 == db
  {
    OrderStands(db.ledger, o, p);
  }

  /** A redelivered settlement of the same kind is a no-op. */
  lemma SettleIsIdempotent(db: Db, u: User, o: Uuid, first: Outcome, second: Outcome, now: int, later: int, p: Policy)
    requires Inv(db, now, p) && now <= later
    requires first.RENDER_FAILED? || !second.RENDER_FAILED?
    requires SettleTx(db, u, o, first, now).0
    ensures var after := SettleTx(db, u, o, first, now).1; SettleTx(after, u, o, second, later) == (false, after)
  {
    OrderStands(db.ledger, o, p);
    var g := Generation(db.ledger, o);
    Append(db.ledger, Entry(Some(u), REFUND, ORDER_FAILED, -Net(db.ledger, o), Some(o), g, Refund(o, g), now));
    Append(db.ledger, Entry(Some(u), CONSUME, ORDER_DELIVERED, 0, Some(o), g, Consume(o, g), now));
    Append(db.ledger, Entry(Some(u), CONSUME, ORDER_NOT_DELIVERED, 0, Some(o), g, Consume(o, g), now));
    hide KeysOf, Net, Generation, Inv;
  }

  /**
   * The exception. A settlement call closes a generation that is already closed if and only
   * if it reports a failure after the order was consumed and the account still exists: a
   * consumed order still reads as holding its credit, so the refund's guard lets it through.
   */
  lemma SettledTwiceExactlyWhen(db: Db, u: User, o: Uuid, outcome: Outcome, now: int, p: Policy)
    requires Inv(db, now, p)
    ensures var g := Generation(db.ledger, o);
      SettleTx(db, u, o, outcome, now).0 && Settled(db.ledger, Some(o), g)
      <==> outcome.RENDER_FAILED? && u in db.accounts && Consume(o, g) in KeysOf(db.ledger)
  {
    SettleWritesIff(db, u, o, outcome, now, p);
    InvRows(db, now, p);
    OrderStands(db.ledger, o, p);
    SettledByKey(db.ledger, o, Generation(db.ledger, o), p);
    hide KeysOf, Net, Generation, Inv;
  }

  /** The exception happens: every charge, raced or not, delivered and then reported failed, is given back. */
  lemma DeliveredThenFailedIsRefunded(db: Db, u: User, o: Uuid, cost: int, now: int, p: Policy, sight: Option<PlanSight>)
    requires p.Valid() && Inv(db, now, p) && SightHolds(db, sight, now)
    requires ChargeTx(db, u, o, cost, now, p, sight).0.Charged?
    ensures var charged := ChargeTx(db, u, o, cost, now, p, sight).1;
      var (delivered, consumed) := SettleTx(charged, u, o, DELIVERED_OK, now);
      var (failed, refunded) := SettleTx(consumed, u, o, RENDER_FAILED, now);
      && delivered && failed
      && u in charged.accounts && refunded.accounts.Keys == charged.accounts.Keys
      && refunded.accounts[u].balance == charged.accounts[u].balance + cost
  {
    hide Inv, KeysOf, Net, Generation, OpenDebits, PickPlan, ChargeTx;
    var charged := ChargeTx(db, u, o, cost, now, p, sight).1;
    ChargeKeeps(db, u, o, cost, now, p, sight);
    ChargedIsPaid(db, u, o, cost, now, p, sight);
    ChargedIsOpen(db, u, o, cost, now, p, sight);
    SettleWritesIff(charged, u, o, DELIVERED_OK, now, p);
    var g := Generation(charged.ledger, o);
    var e := Entry(Some(u), CONSUME, ORDER_DELIVERED, 0, Some(o), g, Consume(o, g), now);
    Append(charged.ledger, e);
    var consumed := SettleTx(charged, u, o, DELIVERED_OK, now).1;
    SettleKeeps(charged, u, o, DELIVERED_OK, now, p);
    SettleWritesIff(consumed, u, o, RENDER_FAILED, now, p);
    StandsAt(consumed, o, now, p);
  }

  /** The exception is reachable: a first render on an empty database, delivered, then reported failed. */
  lemma FreeSongExists()
    ensures var (r, charged) := Charge(EMPTY, 7, "order", 1, 0, SHIPPED);
      var (delivered, consumed) := SettleTx(charged, 7, "order", DELIVERED_OK, 0);
      var (failed, refunded) := SettleTx(consumed, 7, "order", RENDER_FAILED, 0);
      && r.Charged? && delivered && failed && refunded.accounts.Keys == charged.accounts.Keys
      && 7 in charged.accounts && refunded.accounts[7].balance == charged.accounts[7].balance + 1
  {
    hide Inv, ChargeTx, SettleTx;
    EmptyHolds(0, SHIPPED);
    FirstRenderIsCharged();
    FreshSightHolds(EMPTY, 7, 0, SHIPPED);
    DeliveredThenFailedIsRefunded(EMPTY, 7, "order", 1, 0, SHIPPED, Sighted(EMPTY, 7, 0));
  }

  lemma FirstRenderIsCharged()
    ensures Charge(EMPTY, 7, "order", 1, 0, SHIPPED).0.Charged?
  {
    hide Inv, Charge, ChargeTx;
    EmptyHolds(0, SHIPPED);
    FreshChargeDecision(EMPTY, 7, "order", 1, 0, SHIPPED);
    assert OpenDebits([], 7, SHIPPED.Cutoff(0), Some("order")) == {};
  }

  lemma StandsAt(db: Db, o: Uuid, now: int, p: Policy)
    requires Inv(db, now, p)
    ensures Replay(db.ledger, o).Some? && Replay(db.ledger, o).value.held == -Net(db.ledger, o)
  {
    OrderStands(db.ledger, o, p);
  }

  lemma PaymentOpensOrder(db: Db, u: User, o: Uuid, cost: int, now: int)
    requires u in db.accounts && cost >= 1 && Replay(db.ledger, o).Some?
    requires Replay(db.ledger, o).value.held == 0 && Replay(db.ledger, o).value.gen == Generation(db.ledger, o)
    ensures forall after :: after in {PaidFromBalance(db, u, o, cost, now), PaidInTheDark(db, u, o, cost, now)} ==>
      Replay(after.ledger, o) == Some(Phase(Generation(db.ledger, o), cost, false))
  {
    hide KeysOf, Net, Generation, Replay;
    var e := DebitRow(db, u, o, cost, now);
    Append(db.ledger, e);
    Append(db.ledger + [e], CoverRow(db, u, o, cost, now));
  }

  lemma ChargedIsOpen(db: Db, u: User, o: Uuid, cost: int, now: int, p: Policy, sight: Option<PlanSight>)
    requires p.Valid() && Inv(db, now, p) && SightHolds(db, sight, now)
    requires ChargeTx(db, u, o, cost, now, p, sight).0.Charged?
    ensures var charged := ChargeTx(db, u, o, cost, now, p, sight).1;
      Replay(charged.ledger, o) == Some(Phase(Generation(db.ledger, o), cost, false))
  {
    hide Inv, KeysOf, Net, Generation, OpenDebits, PickPlan, Replay, ReadBalance, SongTaken, PaidFromBalance, PaidInTheDark;
    RacedPath(db, u, o, now, p, sight);
    var a := Arrived(db, u, now, p);
    var s := SongTaken(a, u, sight, now);
    ArrivalIsInvisible(db, u, o, now, p, None);
    SongLeavesOrders(a, u, sight, now, o, p);
    StandsAt(s, o, now, p);
    GenerationStands(s, o, now, p);
    HeldIsNothing(s, o, now, p);
    PaymentOpensOrder(s, u, o, cost, now);
    assert ChargeTx(db, u, o, cost, now, p, sight).1 in {PaidFromBalance(s, u, o, cost, now), PaidInTheDark(s, u, o, cost, now)};
  }

  lemma GenerationStands(db: Db, o: Uuid, now: int, p: Policy)
    requires Inv(db, now, p)
    ensures Replay(db.ledger, o).Some? && Replay(db.ledger, o).value.gen == Generation(db.ledger, o)
  {
    OrderStands(db.ledger, o, p);
  }

  // ---- erased mid-render ---------------------------------------------------------------------------

  /**
   * An owner who is forgotten while the song renders: a failure gives nothing back, a
   * delivery is still written down once, under the erased id, and moves no credit. Nothing
   * re-opens the account.
   */
  lemma ForgottenMidRender(db: Db, u: User, o: Uuid, now: int, later: int, p: Policy)
    requires Inv(db, now, p) && now <= later
    ensures var gone := ForgetTx(db, u);
      var ph := Replay(db.ledger, o).value;
      && SettleTx(gone, u, o, RENDER_FAILED, later) == (false, gone)
      && var (wrote, after) := SettleTx(gone, u, o, DELIVERED_OK, later);
         && (wrote <==> ph.held > 0 && !ph.consumed)
         && u !in after.accounts && Sum(after.ledger, Some(u)) == 0
         && (wrote ==> after.ledger[|db.ledger|].user == Some(u) && after.ledger[..|db.ledger|] == gone.ledger)
  {
    hide Inv, KeysOf, Net, Generation, Anonymised, Replay;
    var gone := ForgetTx(db, u);
    ForgetKeeps(db, u, now, p);
    TimePasses(gone, now, later, p);
    ErasureKeepsReads(db.ledger, u, o);
    SettleWritesIff(gone, u, o, DELIVERED_OK, later, p);
    SettleKeeps(gone, u, o, DELIVERED_OK, later, p);
    SumIsBalance(SettleTx(gone, u, o, DELIVERED_OK, later).1, u, later, p);
  }

  lemma SumIsBalance(db: Db, u: User, now: int, p: Policy)
    requires Inv(db, now, p)
    ensures Sum(db.ledger, Some(u)) == BalanceOf(db, u)
  {
  }
}
