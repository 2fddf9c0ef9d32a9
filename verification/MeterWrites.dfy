/** Row by row, what each transaction of the credit meter writes, and the number a customer is shown. */
module MeterWrites {
  import opened Option
  import opened Keys
  import opened Periods
  import opened Ledger
  import opened LedgerHistory
  import opened LedgerInvariant
  import opened MeterCharge

  // ---- the allowance -----------------------------------------------------------------------------

  /** No row of this window's allowance has ever been written for this person, erased or not. */
  ghost predicate NoAllowanceYet(db: Db, u: User, now: int, p: Policy)
    requires p.Valid()
  {
    forall i :: 0 <= i < |db.ledger| ==> db.ledger[i].key != Period(u, PeriodIndex(now, p.periodDays))
  }

  /** The stamp on the account is only a shortcut: the rows alone decide whether an allowance is due. */
  lemma RowsDecideTheAllowance(db: Db, u: User, now: int, p: Policy)
    requires p.Valid() && Inv(db, now, p)
    ensures WindowUnminted(db, u, now, p) <==> NoAllowanceYet(db, u, now, p)
  {
    hide Legal, Unique, Capped, CoversPaired, PlansInv, SalesInv, PeriodIndex;
    var index := PeriodIndex(now, p.periodDays);
    if MintedIndex(db, u).Some? {
      var stamped := MintedIndex(db, u).value;
      assert Period(u, stamped) in KeysOf(db.ledger);
      var i :| 0 <= i < |db.ledger| && db.ledger[i].key == Period(u, stamped);
      assert Shape(db.ledger[i], p);
      IndexIsMonotone(db.ledger[i].at, now, p.periodDays);
    }
  }

  /** The allowance row an arrival writes when it is due, or none. */
  ghost function Minted(db: Db, u: User, now: int, p: Policy): seq<Entry>
    requires p.Valid()
  {
    var index := PeriodIndex(now, p.periodDays);
    if p.allowance >= 1 && NoAllowanceYet(db, u, now, p) then
      var reason := if u in db.accounts && db.accounts[u].period.Some? then PERIOD_ALLOWANCE else SIGNUP_ALLOWANCE;
      [Entry(Some(u), GRANT, reason, p.allowance, None, 0, Period(u, index), now)]
    else []
  }

  lemma ArrivalIsExact(db: Db, u: User, now: int, p: Policy)
    requires p.Valid() && Inv(db, now, p)
    ensures var (a, rows) := (Arrived(db, u, now, p), Minted(db, u, now, p));
      var was := if u in db.accounts then db.accounts[u] else Account(0, 0, None);
      && a == db.(ledger := db.ledger + rows, accounts := a.accounts)
      && a.accounts == db.accounts[u := if rows == [] then was else
           Account(was.balance + p.allowance, was.lifetime + p.allowance, Some(PeriodIndex(now, p.periodDays)))]
  {
    hide KeysOf, PeriodIndex, Inv, NoAllowanceYet;
    RowsDecideTheAllowance(db, u, now, p);
    if u in db.accounts { assert db.accounts[u := db.accounts[u]] == db.accounts; }
  }

  // ---- the song and the debit -----------------------------------------------------------------------

  /** The song row a won claim writes, or none. */
  function Sung(db: Db, u: User, sight: Option<PlanSight>, now: int): seq<Entry> {
    if sight.Some? && sight.value.plan < |db.plans| && db.plans[sight.value.plan].used == sight.value.used >= 0 then
      [Entry(Some(u), GRANT, PLAN_SONG, 1, None, 0, PlanSong(sight.value.plan, sight.value.used), now)]
    else []
  }

  lemma SongIsExact(db: Db, u: User, sight: Option<PlanSight>, now: int, p: Policy)
    requires Inv(db, now, p) && u in db.accounts
    ensures var (s, rows) := (SongTaken(db, u, sight, now), Sung(db, u, sight, now));
      var a := db.accounts[u];
      && s.ledger == db.ledger + rows && s.topups == db.topups && s.blocked == db.blocked && s.orders == db.orders
      && s.accounts == db.accounts[u := a.(balance := a.balance + |rows|, lifetime := a.lifetime + |rows|)]
      && s.plans == if rows == [] then db.plans else
           db.plans[sight.value.plan := db.plans[sight.value.plan].(used := sight.value.used + 1)]
  {
    hide RowsInv, BooksInv, SalesInv, KeysOf;
    if WinsSong(db, sight) {
      assert PlanSong(sight.value.plan, sight.value.used) !in KeysOf(db.ledger);
    } else {
      assert db.accounts[u := db.accounts[u]] == db.accounts;
    }
  }

  /** The debit of a charge, and the grant that covers it when the balance did not. */
  function Paid(l: seq<Entry>, u: User, o: Uuid, cost: int, now: int, isDark: bool): seq<Entry> {
    var g := Generation(l, o);
    [Entry(Some(u), DEBIT, ORDER_RENDER, -cost, Some(o), g, Debit(o, g), now)]
    + if isDark then [Entry(Some(u), GRANT, UNENFORCED_RENDER, cost, None, 0, Unenforced(o, g), now)] else []
  }

  // What a charge can lay its hands on.
  ghost function Reach(db: Db, u: User, now: int, p: Policy, sight: Option<PlanSight>): int
    requires p.Valid()
  {
    BalanceOf(db, u) + |Minted(db, u, now, p)| * p.allowance + |Sung(db, u, sight, now)|
  }

  // The account after a charge of its own.
  ghost function AccountAfter(db: Db, u: User, now: int, p: Policy, sight: Option<PlanSight>, cost: int): Account
    requires p.Valid()
  {
    var was := if u in db.accounts then db.accounts[u] else Account(0, 0, None);
    var (minted, sung) := (|Minted(db, u, now, p)|, |Sung(db, u, sight, now)|);
    var reach := Reach(db, u, now, p, sight);
    Account(if reach >= cost then reach - cost else reach, was.lifetime + minted * p.allowance + sung,
            if minted > 0 then Some(PeriodIndex(now, p.periodDays)) else was.period)
  }

  lemma PaymentIsExact(s: Db, u: User, o: Uuid, cost: int, now: int, p: Policy)
    requires Inv(s, now, p) && u in s.accounts && cost >= 1
    requires Net(s.ledger, o) >= 0 && InFlight(s.ledger, u, p.Cutoff(now), Some(o)) < p.maxInFlight
    ensures var balance := s.accounts[u].balance;
      && PaidInTheDark(s, u, o, cost, now) == s.(ledger := s.ledger + Paid(s.ledger, u, o, cost, now, true))
      && PaidFromBalance(s, u, o, cost, now)
         == s.(ledger := s.ledger + Paid(s.ledger, u, o, cost, now, false),
               accounts := s.accounts[u := s.accounts[u].(balance := balance - cost)])
  {
    hide Inv, KeysOf, Net, Generation;
    PaidInTheDarkKeeps(s, u, o, cost, now, p);
    var e, c := DebitRow(s, u, o, cost, now), CoverRow(s, u, o, cost, now);
    assert s.ledger + [e] + [c] == s.ledger + [e, c] && [e] + [c] == [e, c] && [e] + [] == [e];
  }

  // The tables as a charge finds them when it comes to pay.
  lemma BeforePaying(db: Db, u: User, o: Uuid, now: int, p: Policy, sight: Option<PlanSight>)
    requires p.Valid() && Inv(db, now, p) && SightHolds(db, sight, now)
    ensures var s := SongTaken(Arrived(db, u, now, p), u, sight, now);
      var (minted, sung) := (Minted(db, u, now, p), Sung(db, u, sight, now));
      && s.ledger == db.ledger + minted + sung && s.accounts == db.accounts[u := AccountAfter(db, u, now, p, sight, 0)]
      && s.plans == (if sung == [] then db.plans else
           db.plans[sight.value.plan := db.plans[sight.value.plan].(used := sight.value.used + 1)])
      && s.topups == db.topups && s.blocked == db.blocked && s.orders == db.orders
      && Generation(s.ledger, o) == Generation(db.ledger, o)
  {
    hide Inv, KeysOf, Net, Generation, PeriodIndex, WindowUnminted, SongTaken, Arrived, OpenDebits, ReadBalance,
         NoAllowanceYet;
    ArrivedKeeps(db, u, now, p);
    ArrivalIsExact(db, u, now, p);
    SongIsExact(Arrived(db, u, now, p), u, sight, now, p);
    SongLeavesOrders(Arrived(db, u, now, p), u, sight, now, o, p);
    ArrivalIsInvisible(db, u, o, now, p, None);
  }

  /**
   * Everything a charge writes. If it is served: this window's allowance row when none was ever written,
   * the song's row when its claim is won, the order's debit, and the covering grant when what it can
   * reach falls short; the caller's account by the sum of these; one song on the plan it won from. If the
   * order was paid already: the allowance and no more. If it is refused: nothing.
   */
  lemma ChargeIsExact(db: Db, u: User, o: Uuid, cost: int, now: int, p: Policy, sight: Option<PlanSight>)
    requires p.Valid() && Inv(db, now, p) && SightHolds(db, sight, now)
    ensures var (r, after) := ChargeTx(db, u, o, cost, now, p, sight);
      var (minted, sung) := (Minted(db, u, now, p), Sung(db, u, sight, now));
      if r.Charged? then
        && after.ledger == db.ledger + minted + sung
                           + Paid(db.ledger, u, o, cost, now, Reach(db, u, now, p, sight) < cost)
        && after.accounts == db.accounts[u := AccountAfter(db, u, now, p, sight, cost)]
        && after.plans == (if sung == [] then db.plans else
             db.plans[sight.value.plan := db.plans[sight.value.plan].(used := sight.value.used + 1)])
        && after.topups == db.topups && after.blocked == db.blocked && after.orders == db.orders
      else if r.AlreadyPaid? then
        && after == db.(ledger := db.ledger + minted, accounts := after.accounts)
        && after.accounts == db.accounts[u := AccountAfter(db, u, now, p, None, 0)]
      else after == db
  {
    hide Inv, ReadBalance, KeysOf, Net, Generation, PeriodIndex, WindowUnminted, SongTaken, Arrived, PaidFromBalance,
         PaidInTheDark, Minted, Sung, Reachable, Reach, WinsSong;
    ReachesThat(db, u, now, p, sight);
    RacedPath(db, u, o, now, p, sight);
    ChargeDecision(db, u, o, cost, now, p, sight);
    if ChargeTx(db, u, o, cost, now, p, sight).0.Charged? {
      BeforePaying(db, u, o, now, p, sight);
      FlightStaysUnder(db, u, o, now, p, sight);
      PaymentIsExact(SongTaken(Arrived(db, u, now, p), u, sight, now), u, o, cost, now, p);
    } else {
      OnlyArriving(db, u, now, p);
    }
  }

  lemma ReachesThat(db: Db, u: User, now: int, p: Policy, sight: Option<PlanSight>)
    requires p.Valid() && Inv(db, now, p)
    ensures Reachable(db, u, now, p, sight) == Reach(db, u, now, p, sight)
  {
    hide Inv, KeysOf, PeriodIndex, NoAllowanceYet, WindowUnminted;
    RowsDecideTheAllowance(db, u, now, p);
  }

  lemma OnlyArriving(db: Db, u: User, now: int, p: Policy)
    requires p.Valid() && Inv(db, now, p)
    ensures var a := Arrived(db, u, now, p);
      && a == db.(ledger := db.ledger + Minted(db, u, now, p), accounts := a.accounts)
      && a.accounts == db.accounts[u := AccountAfter(db, u, now, p, None, 0)]
  {
    hide KeysOf, PeriodIndex, WindowUnminted, Arrived, NoAllowanceYet, Inv;
    ArrivalIsExact(db, u, now, p);
  }

  lemma FlightStaysUnder(db: Db, u: User, o: Uuid, now: int, p: Policy, sight: Option<PlanSight>)
    requires p.Valid() && ReadBalance(Arrived(db, u, now, p), u, now, p, Some(o)).inFlight < p.maxInFlight
    ensures InFlight(SongTaken(Arrived(db, u, now, p), u, sight, now).ledger, u, p.Cutoff(now), Some(o)) < p.maxInFlight
  {
    hide PickPlan, OpenDebits, KeysOf, Arrived;
    SongLeavesOrders(Arrived(db, u, now, p), u, sight, now, o, p);
  }

  // ---- settling ---------------------------------------------------------------------------------------

  /**
   * Everything a settlement writes. A failed render gives back what the order holds, to the account that
   * asks and if it still exists; a delivered or undeliverable kit is marked spent, once an attempt, and
   * moves no credit. An order that holds nothing is left alone.
   */
  lemma SettlementIsExact(db: Db, u: User, o: Uuid, outcome: Outcome, now: int, p: Policy)
    requires p.Valid() && Inv(db, now, p)
    ensures var (wrote, after) := SettleTx(db, u, o, outcome, now);
      var (held, g) := (-Net(db.ledger, o), Generation(db.ledger, o));
      if held > 0 && outcome == RENDER_FAILED && u in db.accounts then
        && wrote
        && after == db.(
             ledger := db.ledger + [Entry(Some(u), REFUND, ORDER_FAILED, held, Some(o), g, Refund(o, g), now)],
             accounts := db.accounts[u := db.accounts[u].(balance := db.accounts[u].balance + held)])
      else if held > 0 && outcome != RENDER_FAILED && Consume(o, g) !in KeysOf(db.ledger) then
        && wrote
        && after == db.(ledger := db.ledger + [Entry(Some(u), CONSUME,
             if outcome == DELIVERED_OK then ORDER_DELIVERED else ORDER_NOT_DELIVERED, 0, Some(o), g, Consume(o, g), now)])
      else !wrote && after == db
  {
    hide History, Capped, Dated, BooksInv, PlansInv, SalesInv, KeysOf;
    OrderStands(db.ledger, o, p);
  }

  /** A comp or the grant half of a sale: one row and the credits under a new key, nothing under a used one. */
  lemma GrantIsExact(db: Db, u: User, credits: int, key: Key, reason: Reason, now: int)
    ensures var (wrote, after) := GrantTx(db, u, credits, key, reason, now);
      var was := if u in db.accounts then db.accounts[u] else Account(0, 0, None);
      if credits < 1 then wrote.None? && after == db
      else if exists i :: 0 <= i < |db.ledger| && db.ledger[i].key == key then
        wrote == Some(false) && after == db.(accounts := db.accounts[u := was])
      else
        && wrote == Some(true)
        && after == db.(
             ledger := db.ledger + [Entry(Some(u), GRANT, reason, credits, None, 0, key, now)],
             accounts := db.accounts[u := was.(balance := was.balance + credits, lifetime := was.lifetime + credits)])
  {
    if u in db.accounts { assert db.accounts[u := db.accounts[u]] == db.accounts; }
  }

  /** A purchase nobody has paid, or of the other product, is refused and sells nothing. */
  lemma UnpaidSellsNothing(db: Db, u: User, purchase: Purchase, songs: int, days: int, tail: string, now: int)
    ensures !purchase.isPaid || purchase.product != SINGLE ==> SingleSaleTx(db, u, purchase, tail, now) == (false, db)
    ensures !purchase.isPaid || purchase.product != STARTER ==>
      PlanSaleTx(db, u, purchase, songs, days, tail, now) == (false, db)
  {
  }

  /** A block or its lifting is this person's alone; exactly while it stands, every charge of theirs meets it first. */
  lemma BlockIsExact(db: Db, u: User, isBlocked: bool, o: Uuid, cost: int, now: int, p: Policy, sight: Option<PlanSight>)
    requires p.Valid() && cost >= 1
    ensures var after := SetBlockedTx(db, u, isBlocked);
      && after == db.(blocked := after.blocked) && (u in after.blocked <==> isBlocked)
      && (forall v :: v != u ==> (v in after.blocked <==> v in db.blocked))
      && (ChargeTx(after, u, o, cost, now, p, sight).0.AccountBlocked? <==> isBlocked)
  {
    hide KeysOf, Net, Generation, OpenDebits, PickPlan, AllowanceDue, SongTaken, PaidInTheDark, PaidFromBalance;
  }

  // ---- the number on the screen -------------------------------------------------------------------------

  /**
   * What is shown: the stored balance, an allowance this window has never given, and the songs left on the
   * plan that runs now, with that plan's end; how many debits stand unsettled within the grace; and the
   * block.
   */
  lemma ShownIsExact(db: Db, u: User, now: int, p: Policy, excluded: Option<Uuid>)
    requires p.Valid() && Inv(db, now, p)
    ensures var view := ReadBalance(db, u, now, p, excluded);
      && view.user == u && (view.isBlocked <==> u in db.blocked)
      && view.inFlight == |Rendering(db.ledger, u, now, p.grace, excluded)|
      && view.credits == (if u in db.accounts then db.accounts[u].balance else 0)
                         + (if NoAllowanceYet(db, u, now, p) then p.allowance else 0) + view.planSongsLeft
      && (forall i :: 0 <= i < |db.plans| && db.plans[i].user == Some(u) && now < db.plans[i].endsAt ==>
            view.planEndsAt == Some(db.plans[i].endsAt) && view.planSongsLeft == db.plans[i].included - db.plans[i].used)
      && ((forall i :: 0 <= i < |db.plans| ==> db.plans[i].user != Some(u) || db.plans[i].endsAt <= now) ==>
            view.planEndsAt.None? && view.planSongsLeft == 0)
  {
    RowsDecideTheAllowance(db, u, now, p);
    FlightIsRendering(db.ledger, u, now, p, excluded);
    PlanShownIsTheOneRunning(db, u, now, p, excluded);
    hide Inv, PickPlan, OpenDebits, Rendering, NoAllowanceYet, WindowUnminted;
  }
}
