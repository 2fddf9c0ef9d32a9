/**
 * The render gate: authorise with the inner provider first, then take one credit. It is the
 * only writer of a debit.
 */
module PaymentGate {
  import opened Option
  import opened Keys
  import opened Ledger
  import opened LedgerHistory
  import opened LedgerInvariant
  import opened MeterCharge
  import opened MeterOrders
  import opened MeterWrites
  import CreditStore

  const DEFAULT_COST := 1

  datatype InnerAnswer = Authorized(reference: string) | Declined | InnerFailed

  datatype GateAnswer = Passed(reference: string) | NotAuthorized(inner: InnerAnswer) | ChargeRefused(why: ChargeResult)

  function AuthorizeTx(db: Db, inner: InnerAnswer, u: User, o: Uuid, now: int, p: Policy,
                       sight: Option<PlanSight>): (GateAnswer, Db)
    requires p.Valid()
  {
    if !inner.Authorized? then (NotAuthorized(inner), db)
    else
      var (r, after) := ChargeTx(db, u, o, DEFAULT_COST, now, p, sight);
      (if r.Charged? || r.AlreadyPaid? then Passed(inner.reference) else ChargeRefused(r), after)
  }

  class CreditGate {
    const credits: CreditStore.Store

    constructor (store: CreditStore.Store)
      ensures credits == store
    {
      credits := store;
    }

    method Authorize(inner: InnerAnswer, u: User, o: Uuid, now: int, p: Policy, sight: Option<PlanSight>)
      returns (r: GateAnswer)
      requires p.Valid()
      modifies credits
      ensures (r, credits.Rows()) == AuthorizeTx(old(credits.Rows()), inner, u, o, now, p, sight)
    {
      if !inner.Authorized? {
        return NotAuthorized(inner);
      }
      var charged := credits.Charge(u, o, DEFAULT_COST, now, p, sight);
      if charged.Charged? || charged.AlreadyPaid? {
        return Passed(inner.reference);
      }
      return ChargeRefused(charged);
    }
  }

  /** Unless the gate passes, nothing at all is written: a declined card cannot burn a credit. */
  lemma RefusalCostsNothing(db: Db, inner: InnerAnswer, u: User, o: Uuid, now: int, p: Policy, sight: Option<PlanSight>)
    requires p.Valid() && !AuthorizeTx(db, inner, u, o, now, p, sight).0.Passed?
    ensures AuthorizeTx(db, inner, u, o, now, p, sight).1 == db
  {
    RefusalRollsBack(db, u, o, DEFAULT_COST, now, p, sight);
  }

  /** No render without a debit behind it: an order the gate passes holds credit afterwards. */
  lemma PassedOrderHoldsCredit(db: Db, inner: InnerAnswer, u: User, o: Uuid, now: int, p: Policy, sight: Option<PlanSight>)
    requires p.Valid() && Inv(db, now, p) && SightHolds(db, sight, now)
    requires AuthorizeTx(db, inner, u, o, now, p, sight).0.Passed?
    ensures Net(AuthorizeTx(db, inner, u, o, now, p, sight).1.ledger, o) < 0
  {
    hide Inv, ReadBalance, SongTaken, Arrived, KeysOf, Net, Generation, PaidFromBalance, PaidInTheDark;
    ChargeDecision(db, u, o, DEFAULT_COST, now, p, sight);
    RacedPath(db, u, o, now, p, sight);
    if ChargeTx(db, u, o, DEFAULT_COST, now, p, sight).0.Charged? {
      ChargedIsPaid(db, u, o, DEFAULT_COST, now, p, sight);
    }
  }

  /**
   * Every later attempt at an order that holds credit passes again, whenever it comes, with
   * whatever plan read and however full the account is, and takes nothing: the order's net
   * position stands and so does the number on the customer's screen.
   */
  lemma RetriesAreFree(db: Db, reference: string, u: User, o: Uuid, later: int, p: Policy, sight: Option<PlanSight>)
    requires p.Valid() && Inv(db, later, p) && SightHolds(db, sight, later)
    requires Net(db.ledger, o) < 0 && u !in db.blocked
    ensures var (r, after) := AuthorizeTx(db, Authorized(reference), u, o, later, p, sight);
      && r == Passed(reference) && Net(after.ledger, o) == Net(db.ledger, o)
      && ReadBalance(after, u, later, p, None) == ReadBalance(db, u, later, p, None)
  {
    hide Inv, ReadBalance, SongTaken, Arrived, KeysOf, Net, Generation, PaidFromBalance, PaidInTheDark;
    ChargeDecision(db, u, o, DEFAULT_COST, later, p, sight);
    ArrivalIsInvisible(db, u, o, later, p, None);
    ArrivalIsInvisible(db, u, o, later, p, Some(o));
  }

  /**
   * When the gate lets a render through: the provider has authorised it, the account is not blocked, and
   * the order is paid for already or fewer renders than the cap stand open and, where it counts, a credit
   * is within reach. A first pass costs exactly one.
   */
  lemma GatePassesIff(db: Db, inner: InnerAnswer, u: User, o: Uuid, now: int, p: Policy, sight: Option<PlanSight>)
    requires p.Valid() && Inv(db, now, p) && SightHolds(db, sight, now)
    ensures var (r, after) := AuthorizeTx(db, inner, u, o, now, p, sight);
      && (r.Passed? <==>
            && inner.Authorized? && u !in db.blocked
            && (Net(db.ledger, o) < 0
                || (|Rendering(db.ledger, u, now, p.grace, Some(o))| < p.maxInFlight
                    && (p.enforced ==> Reach(db, u, now, p, sight) >= 1))))
      && (r.Passed? ==> r.reference == inner.reference)
      && (r.Passed? && Net(db.ledger, o) >= 0 ==> Net(after.ledger, o) == -1)
  {
    hide Inv, ReadBalance, ChargeTx, KeysOf, Net, Reach, Reachable, Rendering;
    ChargeDecision(db, u, o, 1, now, p, sight);
    ReachesThat(db, u, now, p, sight);
    FlightShown(db, u, o, now, p);
    if inner.Authorized? && ChargeTx(db, u, o, 1, now, p, sight).0.Charged? { ChargedIsPaid(db, u, o, 1, now, p, sight); }
  }

  lemma FlightShown(db: Db, u: User, o: Uuid, now: int, p: Policy)
    requires p.Valid()
    ensures ReadBalance(db, u, now, p, Some(o)).inFlight == |Rendering(db.ledger, u, now, p.grace, Some(o))|
  {
    hide PickPlan, OpenDebits, Rendering;
    FlightIsRendering(db.ledger, u, now, p, Some(o));
  }
}
