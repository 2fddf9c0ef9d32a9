/** The in-flight cap, told with the instants written out: who is refused for it, when, and for how long. */
module MeterCap {
  import opened Counting
  import opened Option
  import opened Keys
  import opened Periods
  import opened Ledger
  import opened LedgerHistory
  import opened LedgerInvariant
  import opened MeterCharge

  /**
   * At every instant of every run: however one picks them, the unsettled debits of one person that
   * are no more than the grace old are never more than the cap.
   */
  lemma CapHoldsThroughout(states: seq<Db>, steps: seq<Timed>, start: int, p: Policy, i: nat, u: User, now: int,
                           debits: set<int>)
    requires IsRun(states, steps, start, p) && Inv(states[0], start, p) && i <= |steps| && now >= ClockAt(steps, start, i)
    requires forall k :: k in debits ==> IsRendering(states[i].ledger, k, u, now, p.grace)
    ensures |debits| <= p.maxInFlight
  {
    hide Inv;
    CapAndBooksHoldThroughout(states, steps, start, p, i, u, now);
    SubsetSize(debits, Rendering(states[i].ledger, u, now, p.grace, None));
  }

  /**
   * A charge for an order that holds nothing is refused for the cap exactly when that many debits of
   * other orders stand unsettled within the grace, it says how many, and the number shown to the
   * customer is the same count over all orders.
   */
  lemma ChargeIsCappedIff(db: Db, u: User, o: Uuid, cost: int, now: int, p: Policy, sight: Option<PlanSight>)
    requires p.Valid() && Inv(db, now, p) && SightHolds(db, sight, now)
    requires cost >= 1 && u !in db.blocked && Net(db.ledger, o) >= 0
    ensures var others := |Rendering(db.ledger, u, now, p.grace, Some(o))|;
      var r := ChargeTx(db, u, o, cost, now, p, sight).0;
      && (r.TooManyInFlight? <==> others >= p.maxInFlight)
      && (r.TooManyInFlight? ==> r.inFlight == others)
      && ReadBalance(db, u, now, p, None).inFlight == |Rendering(db.ledger, u, now, p.grace, None)|
  {
    ChargeDecision(db, u, o, cost, now, p, sight);
    FlightIsRendering(db.ledger, u, now, p, Some(o));
    FlightIsRendering(db.ledger, u, now, p, None);
    hide Inv, IsRendering, OpenDebits, ChargeTx;
  }

  /**
   * Where the shipped grace comes from: the longest life five attempts of 900 seconds can lead when each
   * is parked five seconds more than the last, to the second.
   */
  lemma ShippedGraceIsTheLadder()
    ensures SHIPPED.grace == SettlementGrace(900.0, 5, 5.0) == 4550
    ensures LadderEnd([900.0, 900.0, 900.0, 900.0, 900.0], 5.0) == 4550.0
  {
    LadderClosedForm([900.0, 900.0, 900.0, 900.0, 900.0], 900.0, 5.0);
  }

  // ---- the first charge of a new account ----------------------------------------------------------

  // One allowance row, then one debit.
  lemma FirstArrival(db: Db, u: User) returns (row: Entry)
    requires db == EMPTY.(orders := db.orders)
    ensures row.kind == GRANT && row.order == None && row.key.Period?
    ensures Arrived(db, u, 0, SHIPPED)
         == db.(accounts := map[u := Account(3, 3, Some(PeriodIndex(0, 30)))], ledger := [row])
  {
    row := AllowanceRow(Opened(db, u), u, 0, SHIPPED);
    assert KeysOf([]) == {};
  }

  lemma NobodyFlies(row: Entry, u: User, cutoff: int, excluded: Option<Uuid>)
    requires row.kind != DEBIT
    ensures OpenDebits([row], u, cutoff, excluded) == {}
  {
  }

  lemma FirstView(a: Db, row: Entry, u: User, o: Uuid)
    requires a.ledger == [row] && row.kind != DEBIT && a.blocked == {}
    ensures var view := ReadBalance(a, u, 0, SHIPPED, Some(o)); !view.isBlocked && view.inFlight == 0
  {
    hide PickPlan, WindowUnminted, OpenDebits;
    NobodyFlies(row, u, SHIPPED.Cutoff(0), Some(o));
  }

  // Nothing of the order stands in the ledger yet, and then its debit does.
  lemma FirstRows(row: Entry, debit: Entry, o: Uuid, other: Uuid)
    requires row.kind == GRANT && row.order == None && row.key.Period? && other != o
    requires debit.kind == DEBIT && debit.order == Some(o) && debit.delta == -1
    ensures Net([row], o) == 0 && Generation([row], o) == 0 && Debit(o, 0) !in KeysOf([row])
    ensures Net([row, debit], o) == -1 && Net([row, debit], other) == 0
  {
    assert [] + [row] == [row] && [row] + [debit] == [row, debit];
    Append([], row);
    Append([row], debit);
  }

  // What the first charge of an account leaves: two credits, the allowance row and the order's debit.
  ghost predicate FirstIsOut(db: Db, u: User, o: Uuid, other: Uuid) {
    && u in db.accounts && db.accounts[u].balance == 2 && db.blocked == {} && |db.ledger| == 2
    && db.ledger[0].kind == GRANT && Net(db.ledger, o) == -1 && Net(db.ledger, other) == 0
    && db.ledger[1] == Entry(Some(u), DEBIT, ORDER_RENDER, -1, Some(o), 0, Debit(o, 0), 0)
  }

  lemma FirstChargePays(db: Db, u: User, o: Uuid, other: Uuid)
    requires db == EMPTY.(orders := db.orders) && other != o
    ensures ChargeTx(db, u, o, 1, 0, SHIPPED, None).0.Charged?
    ensures FirstIsOut(ChargeTx(db, u, o, 1, 0, SHIPPED, None).1, u, o, other)
  {
    hide Arrived, ReadBalance, KeysOf, Net, Generation;
    var row := FirstArrival(db, u);
    var a := Arrived(db, u, 0, SHIPPED);
    FirstView(a, row, u, o);
    FirstRows(row, DebitRow(a, u, o, 1, 0), o, other);
    assert [row] + [DebitRow(a, u, o, 1, 0)] == [row, DebitRow(a, u, o, 1, 0)];
  }

  // ---- a second order beside the first ---------------------------------------------------------------

  // The one debit of such an account keeps others out until it is older than 4550 seconds.
  lemma OneDebitRenders(db: Db, u: User, o: Uuid, other: Uuid, now: int)
    requires FirstIsOut(db, u, o, other) && other != o
    ensures |Rendering(db.ledger, u, now, 4550, Some(other))| == if now <= 4_550_000_000 then 1 else 0
  {
    hide Net;
    assert Rendering(db.ledger, u, now, 4550, Some(other)) == if now <= 4_550_000_000 then {1} else {};
  }

  /** On the shipped policy: beside one order charged at 0, another is refused until 4550 s are past, and then served. */
  lemma SecondOrderWaits(db: Db, u: User, o: Uuid, other: Uuid, now: int)
    requires FirstIsOut(db, u, o, other) && other != o && Inv(db, 0, SHIPPED) && now >= 0
    ensures var (r, after) := ChargeTx(db, u, other, 1, now, SHIPPED, None);
      if now <= 4_550_000_000 then r == TooManyInFlight(1) && after == db else r.Charged?
  {
    hide Inv, ChargeTx, Net, ReadBalance, Rendering, WindowUnminted;
    TimePasses(db, 0, now, SHIPPED);
    NothingSighted(db);
    OneDebitRenders(db, u, o, other, now);
    ChargeIsCappedIff(db, u, other, 1, now, SHIPPED, None);
    ChargeDecision(db, u, other, 1, now, SHIPPED, None);
    RefusalRollsBack(db, u, other, 1, now, SHIPPED, None);
  }

  lemma NothingSighted(db: Db)
    ensures forall t :: SightHolds(db, None, t)
  {
  }

  // Somebody asks for one order, with no plan in sight, and gets this answer and this state.
  ghost predicate Answers(db: Db, ask: Timed, r: ChargeResult, after: Db) {
    && ask.step.ChargeStep? && ask.step == ChargeStep(ask.step.u, ask.step.o, 1, None)
    && (r, after) == ChargeTx(db, ask.step.u, ask.step.o, 1, ask.now, SHIPPED, None)
  }

  function Ask(u: User, o: Uuid, now: int): Timed { Timed(now, ChargeStep(u, o, 1, None)) }

  lemma AnswersAreSteps(db: Db, ask: Timed, r: ChargeResult, after: Db)
    requires Answers(db, ask, r, after)
    ensures Enabled(db, ask.step, ask.now) && Apply(db, ask.step, ask.now, SHIPPED) == after
  {
    hide ChargeTx;
  }

  lemma FirstOrder(db: Db, u: User, o: Uuid, other: Uuid) returns (r: ChargeResult, after: Db)
    requires db == EMPTY && other != o
    ensures Answers(db, Ask(u, o, 0), r, after) && r.Charged? && FirstIsOut(after, u, o, other) && Inv(after, 0, SHIPPED)
  {
    hide Inv, ChargeTx, Net, SightHolds;
    EmptyHolds(0, SHIPPED);
    FirstChargePays(db, u, o, other);
    NothingSighted(db);
    ChargeKeeps(db, u, o, 1, 0, SHIPPED, None);
    r, after := ChargeTx(db, u, o, 1, 0, SHIPPED, None).0, ChargeTx(db, u, o, 1, 0, SHIPPED, None).1;
  }

  lemma SecondOrder(db: Db, u: User, o: Uuid, other: Uuid, now: int) returns (r: ChargeResult, after: Db)
    requires FirstIsOut(db, u, o, other) && other != o && Inv(db, 0, SHIPPED) && now >= 0
    ensures Answers(db, Ask(u, other, now), r, after)
    ensures if now <= 4_550_000_000 then r == TooManyInFlight(1) && after == db else r.Charged?
  {
    hide Inv, ChargeTx, FirstIsOut;
    SecondOrderWaits(db, u, o, other, now);
    r, after := ChargeTx(db, u, other, 1, now, SHIPPED, None).0, ChargeTx(db, u, other, 1, now, SHIPPED, None).1;
  }

  /**
   * The shipped policy, from nothing: one order is charged, and a second is refused a second later
   * and still at 4550 seconds, at no cost, and served a microsecond after that.
   */
  lemma SecondOrderRun(u: User, o: Uuid, other: Uuid)
    returns (states: seq<Db>, asks: seq<Timed>, replies: seq<ChargeResult>)
    requires other != o
    ensures IsRun(states, asks, 0, SHIPPED) && states[0] == EMPTY && |replies| == 4
    ensures asks == [Ask(u, o, 0), Ask(u, other, 1_000_000), Ask(u, other, 4_550_000_000), Ask(u, other, 4_550_000_001)]
    ensures forall k :: 0 <= k < 4 ==> Answers(states[k], asks[k], replies[k], states[k + 1])
    ensures replies[0].Charged? && replies[1] == TooManyInFlight(1) == replies[2] && replies[3].Charged?
    ensures states[1] == states[2] == states[3]
  {
    hide Inv, Enabled, Apply, Answers, FirstIsOut;
    var first, db := FirstOrder(EMPTY, u, o, other);
    var early, same := SecondOrder(db, u, o, other, 1_000_000);
    var late, still := SecondOrder(db, u, o, other, 4_550_000_000);
    var over, last := SecondOrder(db, u, o, other, 4_550_000_001);
    asks := [Ask(u, o, 0), Ask(u, other, 1_000_000), Ask(u, other, 4_550_000_000), Ask(u, other, 4_550_000_001)];
    states, replies := [EMPTY, db, db, db, last], [first, early, late, over];
    forall k | 0 <= k < 4 ensures Enabled(states[k], asks[k].step, asks[k].now)
                               && Apply(states[k], asks[k].step, asks[k].now, SHIPPED) == states[k + 1]
    {
      AnswersAreSteps(states[k], asks[k], replies[k], states[k + 1]);
    }
  }
}
