/**
 * Render jobs beside the meter: attempts that pass the gate, stamp the order row, are parked
 * and come back, deliver or fail; and a sweep that runs on a grace of its own, which need
 * not be the one the queue was configured for.
 */
module MeterJobs {
  import opened Option
  import opened Keys
  import opened Periods
  import opened Ledger
  import opened LedgerHistory
  import opened LedgerInvariant
  import opened MeterCap
  import opened MeterSweep
  import opened PaymentGate

  /**
   * One order's job: when it began, which attempt it is on, whether that attempt is running
   * or parked and since when, and whether the gate has passed it.
   */
  datatype Job = Job(user: User, begun: int, attempt: nat, isRunning: bool, since: int, paid: bool)

  datatype World = World(db: Db, jobs: map<Uuid, Job>)

  datatype JobStep =
    | Begin(o: Uuid, u: User)
    | Gate(o: Uuid, inner: InnerAnswer, sight: Option<PlanSight>)
    | Stamp(o: Uuid, state: OrderState)
    | Park(o: Uuid)
    | Resume(o: Uuid)
    | Finish(o: Uuid, outcome: Outcome)
    | Die(o: Uuid)
    | Sweep(limit: nat, picks: seq<nat>)
    | Elsewhere(step: Step)

  // The rest of the system leaves a live job's order to the job: nobody else charges it,
  // settles it or writes its row, and sweeps are steps of their own.
  predicate Meddles(w: World, step: Step) {
    match step
    case ChargeStep(_, o, _, _) => o in w.jobs
    case SettleStep(_, o, _) => o in w.jobs
    case OrderMovedStep(o, _) => o in w.jobs
    case SweepStep(_, _, _) => true
    case _ => false
  }

  predicate IsRunning(w: World, o: Uuid) { o in w.jobs && w.jobs[o].isRunning }

  function SweepCutoff(now: int, grace: int): int { now - grace * SECOND }

  /** `grace` is the sweep's own, in seconds. */
  ghost predicate Can(w: World, step: JobStep, now: int, grace: int) {
    match step
    // The gate may charge before the order is persisted, so its row may not be there yet.
    case Begin(o, _) => o !in w.jobs && !OrderIsOver(w.db, o)
    case Gate(o, _, sight) => IsRunning(w, o) && SightHolds(w.db, sight, now)
    case Stamp(o, state) => IsRunning(w, o) && state != CANCELLED
    case Park(o) => IsRunning(w, o)
    case Resume(o) => o in w.jobs && !w.jobs[o].isRunning
    case Finish(o, outcome) => IsRunning(w, o) && (outcome.RENDER_FAILED? || w.jobs[o].paid)
    case Die(o) => o in w.jobs
    case Sweep(limit, picks) => IsSelection(w.db, SweepCutoff(now, grace), limit, picks)
    case Elsewhere(step) => Enabled(w.db, step, now) && !Meddles(w, step)
  }

  function With(w: World, o: Uuid, job: Job): World { w.(jobs := w.jobs[o := job]) }

  ghost function Do(w: World, step: JobStep, now: int, grace: int, p: Policy): World
    requires p.Valid() && Can(w, step, now, grace)
  {
    match step
    case Begin(o, u) => With(w, o, Job(u, now, 1, true, now, false))
    case Gate(o, inner, sight) =>
      var (answer, db) := AuthorizeTx(w.db, inner, w.jobs[o].user, o, now, p, sight);
      With(w.(db := db), o, w.jobs[o].(paid := w.jobs[o].paid || answer.Passed?))
    case Stamp(o, state) => w.(db := OrderMovedTx(w.db, o, OrderRow(state, now)))
    case Park(o) => With(w, o, w.jobs[o].(isRunning := false, since := now))
    case Resume(o) => With(w, o, w.jobs[o].(isRunning := true, since := now, attempt := w.jobs[o].attempt + 1))
    case Finish(o, outcome) => World(SettleTx(w.db, w.jobs[o].user, o, outcome, now).1, w.jobs - {o})
    case Die(o) => w.(jobs := w.jobs - {o})
    case Sweep(_, picks) => w.(db := CloseAll(w.db, StalesAt(w.db, picks), now).1)
    case Elsewhere(step) => w.(db := Apply(w.db, step, now, p))
  }

  // ---- what every step keeps ---------------------------------------------------------------------

  ghost predicate NoneCalledOff(w: World) {
    forall o :: o in w.jobs ==> !OrderIsOver(w.db, o)
  }

  ghost predicate WorldInv(w: World, clock: int, p: Policy) {
    Inv(w.db, clock, p) && NoneCalledOff(w)
  }

  /** No job that the gate has passed is rendering an order whose credit was taken back. */
  ghost predicate JobsHold(w: World) {
    forall o :: o in w.jobs && w.jobs[o].paid ==> Net(w.db.ledger, o) < 0
  }

  // Only a stamp moves an order row, and only the row of the job that makes it.
  lemma ArrivalLeavesRows(db: Db, u: User, now: int, p: Policy)
    requires p.Valid()
    ensures Arrived(db, u, now, p).orders == db.orders
  {
    hide AllowanceDue;
  }

  lemma SongLeavesRows(db: Db, u: User, sight: Option<PlanSight>, now: int)
    requires u in db.accounts
    ensures SongTaken(db, u, sight, now).orders == db.orders
  {
    hide KeysOf;
  }

  lemma ChargeLeavesRows(db: Db, u: User, o: Uuid, cost: int, now: int, p: Policy, sight: Option<PlanSight>)
    requires p.Valid()
    ensures ChargeTx(db, u, o, cost, now, p, sight).1.orders == db.orders
  {
    hide KeysOf, Net, Generation, OpenDebits, PickPlan, ReadBalance, AllowanceDue, Arrived, SongTaken;
    ArrivalLeavesRows(db, u, now, p);
    SongLeavesRows(Arrived(db, u, now, p), u, sight, now);
  }

  lemma {:induction false} CloseAllLeavesRows(db: Db, stales: seq<StaleDebit>, now: int)
    ensures CloseAll(db, stales, now).1.orders == db.orders
  {
    hide KeysOf, Net, Generation;
    if stales != [] { CloseAllLeavesRows(db, stales[..|stales| - 1], now); }
  }

  lemma ElsewhereLeavesRows(w: World, step: Step, now: int, p: Policy)
    requires p.Valid() && NoneCalledOff(w) && Enabled(w.db, step, now) && !Meddles(w, step)
    ensures NoneCalledOff(w.(db := Apply(w.db, step, now, p)))
  {
    hide ChargeTx, SettleTx, KeysOf, PickPlan;
    match step
    case ChargeStep(u, o, cost, sight) => ChargeLeavesRows(w.db, u, o, cost, now, p, sight);
    case SettleStep(u, o, outcome) => SettleLeavesRows(w.db, u, o, outcome, now);
    case _ =>
  }

  lemma StampKeeps(db: Db, o: Uuid, state: OrderState, now: int, p: Policy)
    requires Inv(db, now, p)
    ensures Inv(OrderMovedTx(db, o, OrderRow(state, now)), now, p)
  {
    hide Inv;
    StepKeeps(db, OrderMovedStep(o, OrderRow(state, now)), now, now, p);
  }

  lemma SweepKeeps(db: Db, cutoff: int, limit: nat, picks: seq<nat>, now: int, p: Policy)
    requires Inv(db, now, p) && IsSelection(db, cutoff, limit, picks)
    ensures var after := CloseAll(db, StalesAt(db, picks), now).1; Inv(after, now, p) && after.orders == db.orders
  {
    hide Inv, CloseAll;
    CloseAllKeeps(db, StalesAt(db, picks), now, p);
    CloseAllLeavesRows(db, StalesAt(db, picks), now);
  }

  lemma StepKeepsWorld(w: World, step: JobStep, clock: int, now: int, grace: int, p: Policy)
    requires p.Valid() && WorldInv(w, clock, p) && clock <= now && Can(w, step, now, grace)
    ensures WorldInv(Do(w, step, now, grace, p), now, p)
  {
    hide Inv, AuthorizeTx, CloseAll, Apply, IsSelection, SettleTx;
    TimePasses(w.db, clock, now, p);
    match step
    case Gate(o, inner, sight) => GateKeeps(w.db, inner, w.jobs[o].user, o, now, p, sight);
    case Stamp(o, state) => StampKeeps(w.db, o, state, now, p);
    case Finish(o, outcome) =>
      LedgerInvariant.SettleKeeps(w.db, w.jobs[o].user, o, outcome, now, p);
      SettleLeavesRows(w.db, w.jobs[o].user, o, outcome, now);
    case Sweep(limit, picks) => SweepKeeps(w.db, SweepCutoff(now, grace), limit, picks, now, p);
    case Elsewhere(step) =>
      StepKeeps(w.db, step, now, now, p);
      ElsewhereLeavesRows(w, step, now, p);
    case _ =>
  }

  lemma GateKeeps(db: Db, inner: InnerAnswer, u: User, o: Uuid, now: int, p: Policy, sight: Option<PlanSight>)
    requires p.Valid() && Inv(db, now, p) && SightHolds(db, sight, now)
    ensures var after := AuthorizeTx(db, inner, u, o, now, p, sight).1; Inv(after, now, p) && after.orders == db.orders
  {
    hide Inv, ChargeTx;
    ChargeKeeps(db, u, o, DEFAULT_COST, now, p, sight);
    ChargeLeavesRows(db, u, o, DEFAULT_COST, now, p, sight);
  }

  lemma SettleLeavesRows(db: Db, u: User, o: Uuid, outcome: Outcome, now: int)
    ensures SettleTx(db, u, o, outcome, now).1.orders == db.orders
  {
  }

  // ---- who can touch where an order stands ----------------------------------------------------------

  lemma MintsLeaveStanding(db: Db, u: User, now: int, p: Policy, sight: Option<PlanSight>, o: Uuid)
    requires p.Valid()
    ensures var a := Arrived(db, u, now, p);
      Stands(a.ledger, o) == Stands(db.ledger, o) && Stands(SongTaken(a, u, sight, now).ledger, o) == Stands(a.ledger, o)
  {
    hide KeysOf, Stands, AllowanceDue;
    var ready, a := Opened(db, u), Arrived(db, u, now, p);
    AppendStands(ready.ledger, AllowanceRow(ready, u, now, p), o);
    if WinsSong(a, sight) {
      var key := PlanSong(sight.value.plan, sight.value.used);
      AppendStands(a.ledger, Entry(Some(u), GRANT, PLAN_SONG, 1, None, 0, key, now), o);
    }
  }

  lemma ChargeLeavesOthers(db: Db, u: User, o: Uuid, cost: int, now: int, p: Policy, sight: Option<PlanSight>, other: Uuid)
    requires p.Valid() && other != o
    ensures Stands(ChargeTx(db, u, o, cost, now, p, sight).1.ledger, other) == Stands(db.ledger, other)
  {
    hide KeysOf, Generation, OpenDebits, PickPlan, ReadBalance, AllowanceDue, SongTaken, Arrived, Stands;
    MintsLeaveStanding(db, u, now, p, sight, other);
    var s := SongTaken(Arrived(db, u, now, p), u, sight, now);
    AppendStands(s.ledger, DebitRow(s, u, o, cost, now), other);
    AppendStands(s.ledger + [DebitRow(s, u, o, cost, now)], CoverRow(s, u, o, cost, now), other);
  }

  lemma SettleLeavesOthers(db: Db, u: User, o: Uuid, outcome: Outcome, now: int, other: Uuid)
    requires other != o
    ensures Stands(SettleTx(db, u, o, outcome, now).1.ledger, other) == Stands(db.ledger, other)
  {
    hide KeysOf, Generation, Stands;
    var g := Generation(db.ledger, o);
    AppendStands(db.ledger, Entry(Some(u), REFUND, ORDER_FAILED, -Net(db.ledger, o), Some(o), g, Refund(o, g), now), other);
    AppendStands(db.ledger, Entry(Some(u), CONSUME, ORDER_DELIVERED, 0, Some(o), g, Consume(o, g), now), other);
    AppendStands(db.ledger, Entry(Some(u), CONSUME, ORDER_NOT_DELIVERED, 0, Some(o), g, Consume(o, g), now), other);
  }

  lemma GrantLeavesStanding(db: Db, u: User, credits: int, key: Key, reason: Reason, now: int, other: Uuid)
    ensures Stands(GrantTx(db, u, credits, key, reason, now).1.ledger, other) == Stands(db.ledger, other)
  {
    hide KeysOf, Stands;
    AppendStands(db.ledger, Entry(Some(u), GRANT, reason, credits, None, 0, key, now), other);
  }

  lemma ElsewhereLeavesStanding(w: World, step: Step, now: int, p: Policy, o: Uuid)
    requires p.Valid() && Enabled(w.db, step, now) && !Meddles(w, step) && o in w.jobs
    ensures Stands(Apply(w.db, step, now, p).ledger, o) == Stands(w.db.ledger, o)
  {
    hide KeysOf, Stands, ChargeTx, SettleTx, GrantTx, PickPlan;
    match step
    case ChargeStep(u, other, cost, sight) => ChargeLeavesOthers(w.db, u, other, cost, now, p, sight, o);
    case SettleStep(u, other, outcome) => SettleLeavesOthers(w.db, u, other, outcome, now, o);
    case AdminGrantStep(u, credits, tail) => GrantLeavesStanding(w.db, u, credits, AdminGrant(tail), ADMIN_GRANT, now, o);
    case SingleSaleStep(u, purchase, tail) => SaleLeavesStanding(w.db, u, purchase, tail, now, o);
    case ForgetStep(u) => ErasureKeepsStanding(w.db.ledger, u, o);
    case _ =>
  }

  lemma SaleLeavesStanding(db: Db, u: User, purchase: Purchase, tail: string, now: int, o: Uuid)
    ensures Stands(SingleSaleTx(db, u, purchase, tail, now).1.ledger, o) == Stands(db.ledger, o)
  {
    hide Stands, GrantTx;
    var receipt := Receipt(Some(u), TOPUP_CREDITS, purchase.amount, purchase.reference, now);
    GrantLeavesStanding(db, u, TOPUP_CREDITS, SingleSale(tail), TOPUP_PURCHASE, now, o);
    var recorded := db.(topups := db.topups[SingleSale(tail) := receipt]);
    GrantLeavesStanding(recorded, u, TOPUP_CREDITS, SingleSale(tail), TOPUP_PURCHASE, now, o);
  }

  lemma {:induction false} CloseAllLeavesDebits(db: Db, stales: seq<StaleDebit>, now: int, o: Uuid)
    ensures Stands(CloseAll(db, stales, now).1.ledger, o).1 == Stands(db.ledger, o).1
  {
    hide KeysOf, Net, Generation, Stands;
    if stales != [] {
      CloseAllLeavesDebits(db, stales[..|stales| - 1], now, o);
      var swept, last := CloseAll(db, stales[..|stales| - 1], now).1, stales[|stales| - 1];
      var g := Generation(swept.ledger, last.order);
      var consumed := Entry(Some(last.user), CONSUME, STALE_SETTLEMENT, 0, Some(last.order), g, Consume(last.order, g), now);
      var refund := Entry(Some(last.user), REFUND, STALE_SETTLEMENT, -Net(swept.ledger, last.order), Some(last.order), g,
                          Refund(last.order, g), now);
      AppendStands(swept.ledger, consumed, o);
      AppendStands(swept.ledger, refund, o);
    }
  }

  /** Only the job's own gate debits its order; the debit then dates from that instant. */
  lemma StepDatesDebits(w: World, step: JobStep, now: int, grace: int, p: Policy, o: Uuid)
    requires p.Valid() && WorldInv(w, now, p) && Can(w, step, now, grace) && o in w.jobs
    requires o in Do(w, step, now, grace, p).jobs
    ensures var after := Do(w, step, now, grace, p);
      || (step.Gate? && step.o == o && Stands(after.db.ledger, o).1 == Some(now))
      || (Stands(after.db.ledger, o).1 == Stands(w.db.ledger, o).1
          && (Net(after.db.ledger, o) < 0 ==> Net(w.db.ledger, o) < 0))
  {
    hide Inv, AuthorizeTx, CloseAll, Apply, IsSelection, SettleTx, KeysOf, Net, LastDebit;
    match step
    case Gate(own, inner, sight) =>
      if own == o { OwnGateDatesDebit(w.db, inner, w.jobs[o].user, o, now, p, sight); }
      else { OtherGateLeaves(w.db, inner, w.jobs[own].user, own, now, p, sight, o); }
    case Finish(own, outcome) => SettleLeavesOthers(w.db, w.jobs[own].user, own, outcome, now, o);
    case Sweep(limit, picks) => SweepLeavesDebits(w.db, SweepCutoff(now, grace), limit, picks, now, p, o);
    case Elsewhere(step) => ElsewhereLeavesStanding(w, step, now, p, o);
    case _ =>
  }

  lemma SweepLeavesDebits(db: Db, cutoff: int, limit: nat, picks: seq<nat>, now: int, p: Policy, o: Uuid)
    requires Inv(db, now, p) && IsSelection(db, cutoff, limit, picks)
    ensures var after := CloseAll(db, StalesAt(db, picks), now).1;
      && Stands(after.ledger, o).1 == Stands(db.ledger, o).1 && (Net(after.ledger, o) < 0 ==> Net(db.ledger, o) < 0)
  {
    hide Inv, CloseAll, KeysOf, Net, LastDebit, IsOpenDebit;
    CloseAllLeavesDebits(db, StalesAt(db, picks), now, o);
    assert StalesAt(db, picks)[..|picks|] == StalesAt(db, picks);
    SweepMovesNet(db, cutoff, limit, picks, |picks|, now, p, o);
  }

  lemma OtherGateLeaves(db: Db, inner: InnerAnswer, u: User, own: Uuid, now: int, p: Policy, sight: Option<PlanSight>,
                        o: Uuid)
    requires p.Valid() && o != own
    ensures Stands(AuthorizeTx(db, inner, u, own, now, p, sight).1.ledger, o) == Stands(db.ledger, o)
  {
    hide ChargeTx, Stands;
    ChargeLeavesOthers(db, u, own, DEFAULT_COST, now, p, sight, o);
  }

  lemma OwnGateDatesDebit(db: Db, inner: InnerAnswer, u: User, o: Uuid, now: int, p: Policy, sight: Option<PlanSight>)
    requires p.Valid()
    ensures var after := AuthorizeTx(db, inner, u, o, now, p, sight).1;
      Stands(after.ledger, o).1 == Some(now) || Stands(after.ledger, o) == Stands(db.ledger, o)
  {
    hide KeysOf, Generation, OpenDebits, PickPlan, ReadBalance, AllowanceDue, SongTaken, Arrived, Stands;
    MintsLeaveStanding(db, u, now, p, sight, o);
    var s := SongTaken(Arrived(db, u, now, p), u, sight, now);
    AppendStands(s.ledger, DebitRow(s, u, o, DEFAULT_COST, now), o);
    AppendStands(s.ledger + [DebitRow(s, u, o, DEFAULT_COST, now)], CoverRow(s, u, o, DEFAULT_COST, now), o);
  }

  // ---- safety -----------------------------------------------------------------------------------------

  /** A sweep instant at which no job the gate has passed has gone unheard for the grace. */
  ghost predicate Heard(w: World, now: int, grace: int) {
    forall o :: o in w.jobs && w.jobs[o].paid ==> !Robbable(w.db, o, SweepCutoff(now, grace))
  }

  lemma StepHolds(w: World, step: JobStep, now: int, grace: int, p: Policy)
    requires p.Valid() && WorldInv(w, now, p) && JobsHold(w) && Can(w, step, now, grace)
    requires step.Sweep? ==> Heard(w, now, grace)
    ensures JobsHold(Do(w, step, now, grace, p))
  {
    hide Inv, Net, AuthorizeTx, CloseAll, Apply, IsSelection, SettleTx, Robbable, KeysOf, LastDebit;
    var after := Do(w, step, now, grace, p);
    forall o | o in after.jobs && after.jobs[o].paid ensures Net(after.db.ledger, o) < 0 {
      match step
      case Gate(own, inner, sight) => GateHolds(w, own, inner, sight, now, p, o);
      case Finish(own, outcome) => SettleLeavesOthers(w.db, w.jobs[own].user, own, outcome, now, o);
      case Sweep(limit, picks) => SweepRobsIff(w.db, SweepCutoff(now, grace), limit, picks, now, p, o);
      case Elsewhere(step) => ElsewhereLeavesStanding(w, step, now, p, o);
      case _ =>
    }
  }

  lemma GateHolds(w: World, own: Uuid, inner: InnerAnswer, sight: Option<PlanSight>, now: int, p: Policy, o: Uuid)
    requires p.Valid() && Inv(w.db, now, p) && JobsHold(w) && own in w.jobs && o in w.jobs && SightHolds(w.db, sight, now)
    requires var (answer, _) := AuthorizeTx(w.db, inner, w.jobs[own].user, own, now, p, sight);
      w.jobs[o].paid || (o == own && answer.Passed?)
    ensures Net(AuthorizeTx(w.db, inner, w.jobs[own].user, own, now, p, sight).1.ledger, o) < 0
  {
    hide Inv, Net, ChargeTx;
    var u := w.jobs[own].user;
    if AuthorizeTx(w.db, inner, u, own, now, p, sight).0.Passed? {
      if o == own {
        PassedOrderHoldsCredit(w.db, inner, u, own, now, p, sight);
      } else {
        ChargeLeavesOthers(w.db, u, own, DEFAULT_COST, now, p, sight, o);
      }
    } else {
      RefusalCostsNothing(w.db, inner, u, own, now, p, sight);
    }
  }

  // ---- runs ------------------------------------------------------------------------------------------

  datatype At = At(now: int, step: JobStep)

  function Clock(steps: seq<At>, start: int, i: nat): int
    requires i <= |steps|
  {
    if i == 0 then start else steps[i - 1].now
  }

  /** Any interleaving of jobs, sweeps and everything else, under a clock that never runs backwards. */
  ghost predicate IsJobRun(states: seq<World>, steps: seq<At>, start: int, grace: int, p: Policy) {
    && p.Valid() && |states| == |steps| + 1
    && (forall i :: 0 <= i < |steps| ==>
          && Clock(steps, start, i) <= steps[i].now
          && Can(states[i], steps[i].step, steps[i].now, grace)
          && states[i + 1] == Do(states[i], steps[i].step, steps[i].now, grace, p))
  }

  lemma {:induction false} RunKeepsWorld(states: seq<World>, steps: seq<At>, start: int, grace: int, p: Policy, i: nat)
    requires IsJobRun(states, steps, start, grace, p) && WorldInv(states[0], start, p) && i <= |steps|
    ensures WorldInv(states[i], Clock(steps, start, i), p)
  {
    hide WorldInv, Do, Can;
    if i > 0 {
      RunKeepsWorld(states, steps, start, grace, p, i - 1);
      StepKeepsWorld(states[i - 1], steps[i - 1].step, Clock(steps, start, i - 1), steps[i - 1].now, grace, p);
    }
  }

  lemma {:induction false} HeardJobsHold(states: seq<World>, steps: seq<At>, start: int, grace: int, p: Policy, i: nat)
    requires IsJobRun(states, steps, start, grace, p) && WorldInv(states[0], start, p) && JobsHold(states[0])
    requires i <= |steps|
    requires forall k :: 0 <= k < i && steps[k].step.Sweep? ==> Heard(states[k], steps[k].now, grace)
    ensures JobsHold(states[i])
  {
    hide WorldInv, Do, Can, JobsHold, Heard;
    if i > 0 {
      HeardJobsHold(states, steps, start, grace, p, i - 1);
      RunKeepsWorld(states, steps, start, grace, p, i - 1);
      WorldAges(states[i - 1], Clock(steps, start, i - 1), steps[i - 1].now, p);
      StepHolds(states[i - 1], steps[i - 1].step, steps[i - 1].now, grace, p);
    }
  }

  lemma WorldAges(w: World, clock: int, now: int, p: Policy)
    requires WorldInv(w, clock, p) && clock <= now
    ensures WorldInv(w, now, p)
  {
    hide Inv;
    TimePasses(w.db, clock, now, p);
  }

  /**
   * The exact condition. Over any run whose sweeps are not cut short by their limit, no job
   * the gate passed ever has its credit taken back under it if and only if no sweep finds
   * one whose latest debit and latest stamp are both as old as the sweep's own grace.
   */
  lemma JobsAreSafeIff(states: seq<World>, steps: seq<At>, start: int, grace: int, p: Policy)
    requires IsJobRun(states, steps, start, grace, p) && WorldInv(states[0], start, p) && JobsHold(states[0])
    requires forall k :: 0 <= k < |steps| && steps[k].step.Sweep? ==> |steps[k].step.picks| < steps[k].step.limit
    ensures (forall i :: 0 <= i <= |steps| ==> JobsHold(states[i]))
       <==> (forall k :: 0 <= k < |steps| && steps[k].step.Sweep? ==> Heard(states[k], steps[k].now, grace))
  {
    hide WorldInv, Do, Can, JobsHold, Heard;
    if forall k :: 0 <= k < |steps| && steps[k].step.Sweep? ==> Heard(states[k], steps[k].now, grace) {
      forall i | 0 <= i <= |steps| ensures JobsHold(states[i]) {
        HeardJobsHold(states, steps, start, grace, p, i);
      }
    }
    if forall i :: 0 <= i <= |steps| ==> JobsHold(states[i]) {
      forall k | 0 <= k < |steps| && steps[k].step.Sweep? ensures Heard(states[k], steps[k].now, grace) {
        assert JobsHold(states[k]) && JobsHold(states[k + 1]);
        RunKeepsWorld(states, steps, start, grace, p, k);
        WorldAges(states[k], Clock(steps, start, k), steps[k].now, p);
        HeldMeansHeard(states[k], steps[k].step, steps[k].now, grace, p);
      }
    }
  }

  lemma HeldMeansHeard(w: World, step: JobStep, now: int, grace: int, p: Policy)
    requires p.Valid() && WorldInv(w, now, p) && JobsHold(w) && step.Sweep? && |step.picks| < step.limit
    requires Can(w, step, now, grace) && JobsHold(Do(w, step, now, grace, p))
    ensures Heard(w, now, grace)
  {
    hide Inv, Net, CloseAll, Robbable;
    forall o | o in w.jobs && w.jobs[o].paid ensures !Robbable(w.db, o, SweepCutoff(now, grace)) {
      SweepRobsIff(w.db, SweepCutoff(now, grace), step.limit, step.picks, now, p, o);
      assert o in Do(w, step, now, grace, p).jobs;
    }
  }

  // A job that delivers while its credit is held leaves the debit spent, neither open nor returned.
  lemma HeldDeliveryIsPaidFor(w: World, o: Uuid, outcome: Outcome, now: int, grace: int, p: Policy)
    requires p.Valid() && WorldInv(w, now, p) && JobsHold(w)
    requires Can(w, Finish(o, outcome), now, grace) && !outcome.RENDER_FAILED?
    ensures var after := Do(w, Finish(o, outcome), now, grace, p).db;
      Net(after.ledger, o) == Net(w.db.ledger, o) < 0 && Consume(o, Generation(w.db.ledger, o)) in KeysOf(after.ledger)
  {
    hide Inv, Net, Generation, KeysOf;
    var g := Generation(w.db.ledger, o);
    Append(w.db.ledger, Entry(Some(w.jobs[o].user), CONSUME, ORDER_DELIVERED, 0, Some(o), g, Consume(o, g), now));
    Append(w.db.ledger, Entry(Some(w.jobs[o].user), CONSUME, ORDER_NOT_DELIVERED, 0, Some(o), g, Consume(o, g), now));
  }

  /**
   * What safety buys, over runs: as long as every sweep heard its jobs, each kit that reaches a
   * customer leaves its order paid for, on the attempt it was rendered under, and closed.
   */
  lemma DeliveriesArePaidFor(states: seq<World>, steps: seq<At>, start: int, grace: int, p: Policy, i: nat)
    requires IsJobRun(states, steps, start, grace, p) && WorldInv(states[0], start, p) && JobsHold(states[0])
    requires forall k :: 0 <= k < i < |steps| && steps[k].step.Sweep? ==> Heard(states[k], steps[k].now, grace)
    requires i < |steps| && steps[i].step.Finish? && !steps[i].step.outcome.RENDER_FAILED?
    ensures var (o, before, after) := (steps[i].step.o, states[i].db.ledger, states[i + 1].db.ledger);
      Net(after, o) == Net(before, o) < 0 && Consume(o, Generation(before, o)) in KeysOf(after)
  {
    hide WorldInv, Do, Can, JobsHold, Heard, Net, Generation, KeysOf;
    HeardJobsHold(states, steps, start, grace, p, i);
    RunKeepsWorld(states, steps, start, grace, p, i);
    WorldAges(states[i], Clock(steps, start, i), steps[i].now, p);
    HeldDeliveryIsPaidFor(states[i], steps[i].step.o, steps[i].step.outcome, steps[i].now, grace, p);
  }

  // A robbed job's delivery settles nothing, so the song was free.
  lemma RobbedDeliveryIsFree(w: World, o: Uuid, outcome: Outcome, now: int, grace: int, p: Policy)
    requires p.Valid() && Can(w, Finish(o, outcome), now, grace) && Net(w.db.ledger, o) >= 0
    ensures Do(w, Finish(o, outcome), now, grace, p).db == w.db
  {
  }

  // ---- the ladder --------------------------------------------------------------------------------------

  datatype Queue = Queue(jobTimeout: real, maxTries: nat, backoffBase: real)
  {
    predicate Valid() { jobTimeout > 0.0 && backoffBase >= 0.0 }
    function Grace(): int { SettlementGrace(jobTimeout, maxTries, backoffBase) }
  }

  function Seconds(us: int): real { us as real / SECOND as real }

  /** A running attempt is within its timeout and its try; a parked one is within its deferral. */
  predicate OnTime(job: Job, now: int, q: Queue) {
    if job.isRunning then job.attempt <= q.maxTries && Seconds(now - job.since) < q.jobTimeout
    else job.attempt < q.maxTries && Seconds(now - job.since) <= Deferral(q.backoffBase, job.attempt)
  }

  ghost predicate AllOnTime(w: World, now: int, q: Queue) {
    forall o :: o in w.jobs ==> OnTime(w.jobs[o], now, q)
  }

  // Where the ladder says an attempt can have started, or been parked, at the latest.
  predicate OnLadder(job: Job, q: Queue) {
    && job.attempt >= 1
    && Seconds(job.since - job.begun)
       <= ClosedForm(q.jobTimeout, job.attempt, q.backoffBase) - (if job.isRunning then q.jobTimeout else 0.0)
  }

  ghost predicate LadderInv(w: World, q: Queue) {
    forall o :: o in w.jobs ==>
      && OnLadder(w.jobs[o], q)
      && (Net(w.db.ledger, o) < 0 ==>
            Stands(w.db.ledger, o).1.Some? && Stands(w.db.ledger, o).1.value >= w.jobs[o].begun)
  }

  // A job begins on an order that holds nothing yet.
  predicate BeginsUnpaid(w: World, step: JobStep) {
    step.Begin? ==> Net(w.db.ledger, step.o) >= 0
  }

  lemma LadderMoves(job: Job, now: int, q: Queue)
    requires q.Valid() && OnLadder(job, q) && OnTime(job, now, q)
    ensures job.isRunning ==> OnLadder(job.(isRunning := false, since := now), q)
    ensures !job.isRunning ==> OnLadder(job.(isRunning := true, since := now, attempt := job.attempt + 1), q)
    ensures Seconds(now - job.begun) < ClosedForm(q.jobTimeout, q.maxTries, q.backoffBase)
  {
    hide ClosedForm;
    ClosedFormSteps(q.jobTimeout, job.attempt, q.backoffBase);
    SecondsAdd(now - job.since, job.since - job.begun);
    assert now - job.begun == (now - job.since) + (job.since - job.begun);
    ClosedFormGrows(q.jobTimeout, q.backoffBase, if job.isRunning then job.attempt else job.attempt + 1, q.maxTries);
  }

  lemma SecondsAdd(a: int, b: int)
    ensures Seconds(a + b) == Seconds(a) + Seconds(b)
  {
  }

  lemma LadderStep(w: World, step: JobStep, now: int, grace: int, p: Policy, q: Queue)
    requires p.Valid() && WorldInv(w, now, p) && Can(w, step, now, grace) && LadderInv(w, q) && q.Valid()
    requires AllOnTime(w, now, q) && BeginsUnpaid(w, step) && JobsBegan(w, now)
    ensures LadderInv(Do(w, step, now, grace, p), q) && JobsBegan(Do(w, step, now, grace, p), now)
  {
    hide WorldInv, Net, Stands, OnLadder, OnTime, AuthorizeTx, CloseAll, Apply, IsSelection, SettleTx;
    var after := Do(w, step, now, grace, p);
    forall o | o in after.jobs
      ensures OnLadder(after.jobs[o], q) && after.jobs[o].begun <= now
      ensures Net(after.db.ledger, o) < 0 ==>
        Stands(after.db.ledger, o).1.Some? && Stands(after.db.ledger, o).1.value >= after.jobs[o].begun
    {
      if o in w.jobs {
        StepDatesDebits(w, step, now, grace, p, o);
        LadderMoves(w.jobs[o], now, q);
        PaidIsNoRung(w.jobs[o], q);
      } else {
        FirstRung(after.jobs[o], q);
      }
    }
  }

  // No job began in the future.
  ghost predicate JobsBegan(w: World, now: int) { forall o :: o in w.jobs ==> w.jobs[o].begun <= now }

  lemma PaidIsNoRung(job: Job, q: Queue)
    ensures forall paid :: OnLadder(job.(paid := paid), q) == OnLadder(job, q)
  {
  }

  lemma FirstRung(job: Job, q: Queue)
    requires job.attempt == 1 && job.isRunning && job.since == job.begun
    ensures OnLadder(job, q)
  {
    assert q.backoffBase * 0.0 * 1.0 / 2.0 == 0.0;
  }

  /** A sweep whose grace covers the ladder hears every job: the debit alone is too young. */
  lemma LadderIsHeard(w: World, now: int, grace: int, p: Policy, q: Queue)
    requires WorldInv(w, now, p) && LadderInv(w, q) && AllOnTime(w, now, q) && q.Valid() && grace >= q.Grace() && JobsHold(w)
    ensures Heard(w, now, grace)
  {
    hide Inv, Net, OnLadder, OnTime, ClosedForm;
    forall o | o in w.jobs && w.jobs[o].paid ensures !Robbable(w.db, o, SweepCutoff(now, grace)) {
      LadderMoves(w.jobs[o], now, q);
      WithinGrace(now - w.jobs[o].begun, grace, q);
      assert Stands(w.db.ledger, o).1.value >= w.jobs[o].begun > SweepCutoff(now, grace);
    }
  }

  lemma WithinGrace(us: int, grace: int, q: Queue)
    requires Seconds(us) < ClosedForm(q.jobTimeout, q.maxTries, q.backoffBase) && grace >= q.Grace()
    ensures us < grace * SECOND
  {
    assert Seconds(us) < grace as real;
  }

  /**
   * The claim the grace is derived for, over runs. When the sweep's grace covers the queue's
   * ladder and jobs keep to it, no job that passed the gate ever loses its credit to a sweep,
   * whether or not it stamps its order at all.
   */
  lemma {:induction false} LadderKeepsJobsSafe(states: seq<World>, steps: seq<At>, start: int, grace: int, p: Policy,
                                               q: Queue, i: nat)
    requires IsJobRun(states, steps, start, grace, p) && WorldInv(states[0], start, p) && states[0].jobs == map[]
    requires q.Valid() && grace >= q.Grace() && i <= |steps|
    requires forall k :: 0 <= k < |steps| ==>
      AllOnTime(states[k], steps[k].now, q) && BeginsUnpaid(states[k], steps[k].step)
    ensures JobsHold(states[i]) && LadderInv(states[i], q) && JobsBegan(states[i], Clock(steps, start, i))
  {
    hide WorldInv, Do, Can, Heard, AllOnTime, BeginsUnpaid;
    if i > 0 {
      var w, now := states[i - 1], steps[i - 1].now;
      LadderKeepsJobsSafe(states, steps, start, grace, p, q, i - 1);
      RunKeepsWorld(states, steps, start, grace, p, i - 1);
      WorldAges(w, Clock(steps, start, i - 1), now, p);
      LadderStep(w, steps[i - 1].step, now, grace, p, q);
      LadderIsHeard(w, now, grace, p, q);
      StepHolds(w, steps[i - 1].step, now, grace, p);
    }
  }

  // ---- a short grace ----------------------------------------------------------------------------------

  const WAITING := EMPTY.(orders := map["order" := OrderRow(BRIEF_READY, 0)])

  lemma WaitingHolds()
    ensures Inv(WAITING, 0, SHIPPED)
  {
    hide Inv;
    EmptyHolds(0, SHIPPED);
    StepKeeps(EMPTY, OrderMovedStep("order", OrderRow(BRIEF_READY, 0)), 0, 0, SHIPPED);
  }

  lemma FirstGatePasses()
    ensures var (answer, after) := AuthorizeTx(WAITING, Authorized("ref"), 7, "order", 0, SHIPPED, None);
      && answer.Passed? && Inv(after, 0, SHIPPED) && Net(after.ledger, "order") == -1 && after.orders == WAITING.orders
      && 7 in after.accounts && |after.ledger| == 2 && after.ledger[0].kind == GRANT
      && after.ledger[1] == Entry(Some(7), DEBIT, ORDER_RENDER, -1, Some("order"), 0, Debit("order", 0), 0)
  {
    hide Inv, ChargeTx, Net;
    WaitingHolds();
    FirstChargePays(WAITING, 7, "order", "");
    GateKeeps(WAITING, Authorized("ref"), 7, "order", 0, SHIPPED, None);
  }

  // The instants of the run below: a stamp, a silence longer than the grace, a delivery.
  const STAMPED := 10 * SECOND
  const SWEPT := 4610 * SECOND
  const DELIVERS := 5000 * SECOND

  // What the sweep finds after the silence: the order's one debit, open and old.
  lemma SilentDebitIsFound(db: Db)
    requires Inv(db, STAMPED, SHIPPED) && db.orders == map["order" := OrderRow(LYRICS_READY, STAMPED)]
    requires |db.ledger| == 2 && db.ledger[0].kind == GRANT
    requires db.ledger[1] == Entry(Some(7), DEBIT, ORDER_RENDER, -1, Some("order"), 0, Debit("order", 0), 0)
    ensures var cutoff := SweepCutoff(SWEPT, SHIPPED.grace); IsSelection(db, cutoff, 100, [1]) && Robbable(db, "order", cutoff)
  {
    hide Inv;
    assert IsOpenDebit(db.ledger, 1);
    assert LastDebit(db.ledger, "order") == Some(1);
    assert [1][..0] == [];
  }

  lemma SilentJobIsRobbed(db: Db)
    requires Inv(db, STAMPED, SHIPPED) && db.orders == map["order" := OrderRow(LYRICS_READY, STAMPED)]
    requires |db.ledger| == 2 && db.ledger[0].kind == GRANT && Net(db.ledger, "order") == -1
    requires db.ledger[1] == Entry(Some(7), DEBIT, ORDER_RENDER, -1, Some("order"), 0, Debit("order", 0), 0)
    ensures IsSelection(db, SweepCutoff(SWEPT, SHIPPED.grace), 100, [1])
    ensures Net(CloseAll(db, StalesAt(db, [1]), SWEPT).1.ledger, "order") == 0
  {
    hide Inv, CloseAll, Net, KeysOf, IsSelection, Robbable;
    SilentDebitIsFound(db);
    TimePasses(db, STAMPED, SWEPT, SHIPPED);
    SweepRobsIff(db, SweepCutoff(SWEPT, SHIPPED.grace), 100, [1], SWEPT, SHIPPED, "order");
    SweepMovesNet(db, SweepCutoff(SWEPT, SHIPPED.grace), 100, [1], 1, SWEPT, SHIPPED, "order");
    assert StalesAt(db, [1])[..1] == StalesAt(db, [1]);
  }

  const SLOW := Queue(6000.0, 5, 5.0)

  // One step of the run: possible, and every job on time when it is taken.
  ghost predicate Goes(w: World, step: JobStep, now: int, after: World) {
    && Can(w, step, now, SHIPPED.grace) && after == Do(w, step, now, SHIPPED.grace, SHIPPED)
    && AllOnTime(w, now, SLOW) && BeginsUnpaid(w, step)
  }

  lemma SilentJobIsPaid() returns (begun: World, gated: World, stamped: World)
    ensures Goes(World(WAITING, map[]), Begin("order", 7), 0, begun)
    ensures Goes(begun, Gate("order", Authorized("ref"), None), 0, gated)
    ensures Goes(gated, Stamp("order", LYRICS_READY), STAMPED, stamped)
    ensures stamped.jobs == map["order" := Job(7, 0, 1, true, 0, true)]
    ensures Inv(stamped.db, STAMPED, SHIPPED) && stamped.db.orders == map["order" := OrderRow(LYRICS_READY, STAMPED)]
    ensures |stamped.db.ledger| == 2 && stamped.db.ledger[0].kind == GRANT && Net(stamped.db.ledger, "order") == -1
    ensures stamped.db.ledger[1] == Entry(Some(7), DEBIT, ORDER_RENDER, -1, Some("order"), 0, Debit("order", 0), 0)
  {
    hide Inv, Net, AuthorizeTx, SightHolds;
    FirstGatePasses();
    NothingSighted(WAITING);
    EmptyOrderNet();
    begun := Do(World(WAITING, map[]), Begin("order", 7), 0, SHIPPED.grace, SHIPPED);
    gated := Do(begun, Gate("order", Authorized("ref"), None), 0, SHIPPED.grace, SHIPPED);
    TimePasses(gated.db, 0, STAMPED, SHIPPED);
    StampKeeps(gated.db, "order", LYRICS_READY, STAMPED, SHIPPED);
    stamped := Do(gated, Stamp("order", LYRICS_READY), STAMPED, SHIPPED.grace, SHIPPED);
  }

  lemma SilentJobDelivers(stamped: World) returns (swept: World, done: World)
    requires stamped.jobs == map["order" := Job(7, 0, 1, true, 0, true)] && Net(stamped.db.ledger, "order") == -1
    requires Inv(stamped.db, STAMPED, SHIPPED) && stamped.db.orders == map["order" := OrderRow(LYRICS_READY, STAMPED)]
    requires |stamped.db.ledger| == 2 && stamped.db.ledger[0].kind == GRANT
    requires stamped.db.ledger[1] == Entry(Some(7), DEBIT, ORDER_RENDER, -1, Some("order"), 0, Debit("order", 0), 0)
    ensures Goes(stamped, Sweep(100, [1]), SWEPT, swept) && Goes(swept, Finish("order", DELIVERED_OK), DELIVERS, done)
    ensures JobsHold(stamped) && !JobsHold(swept) && done.db == swept.db && Net(swept.db.ledger, "order") == 0
  {
    hide Inv, Net, CloseAll, IsSelection, SettleTx;
    SilentJobIsRobbed(stamped.db);
    swept := Do(stamped, Sweep(100, [1]), SWEPT, SHIPPED.grace, SHIPPED);
    assert "order" in swept.jobs && swept.jobs["order"].paid;
    done := Do(swept, Finish("order", DELIVERED_OK), DELIVERS, SHIPPED.grace, SHIPPED);
    RobbedDeliveryIsFree(swept, "order", DELIVERED_OK, DELIVERS, SHIPPED.grace, SHIPPED);
  }

  /**
   * The sweep's own comment says a short grace cannot take a credit back from a job that is
   * about to deliver. It can: the sweep runs on the shipped grace whatever the queue allows,
   * so a stage that stays silent for longer, well inside its attempt's timeout, is robbed, and
   * the delivery that follows settles nothing.
   */
  lemma SilenceLosesTheCredit() returns (states: seq<World>, steps: seq<At>)
    ensures IsJobRun(states, steps, 0, SHIPPED.grace, SHIPPED) && states[0] == World(WAITING, map[])
    ensures |steps| == 5 && forall k :: 0 <= k < 5 ==>
      AllOnTime(states[k], steps[k].now, SLOW) && BeginsUnpaid(states[k], steps[k].step)
    ensures JobsHold(states[3]) && steps[3].step.Sweep? && !JobsHold(states[4])
    ensures steps[4].step == Finish("order", DELIVERED_OK)
    ensures states[5].db == states[4].db && Net(states[5].db.ledger, "order") == 0
  {
    hide Inv, Net, Can, Do, AllOnTime, BeginsUnpaid, JobsHold;
    var begun, gated, stamped := SilentJobIsPaid();
    var swept, done := SilentJobDelivers(stamped);
    steps := [At(0, Begin("order", 7)), At(0, Gate("order", Authorized("ref"), None)),
              At(STAMPED, Stamp("order", LYRICS_READY)), At(SWEPT, Sweep(100, [1])),
              At(DELIVERS, Finish("order", DELIVERED_OK))];
    states := [World(WAITING, map[]), begun, gated, stamped, swept, done];
  }

  lemma EmptyOrderNet()
    ensures Net(WAITING.ledger, "order") == 0
  {
  }
}
