/** What every transaction of the credit meter keeps, and that it does over whole runs. */
module LedgerInvariant {
  import opened Counting
  import opened Option
  import opened Keys
  import opened Ledger
  import opened LedgerHistory

  ghost predicate Dated(l: seq<Entry>, clock: int) {
    (forall i :: 0 <= i < |l| ==> l[i].at <= clock) && InClockOrder(l)
  }

  ghost predicate InClockOrder(l: seq<Entry>) {
    forall i, j :: 0 <= i < j < |l| ==> l[i].at <= l[j].at
  }

  // A shortfall grant only ever accompanies the debit it covers.
  ghost predicate CoversPaired(l: seq<Entry>) {
    forall o: Uuid, g: nat :: Unenforced(o, g) in KeysOf(l) ==> Debit(o, g) in KeysOf(l)
  }

  ghost predicate Capped(l: seq<Entry>, clock: int, p: Policy) {
    forall u: User :: InFlight(l, u, p.Cutoff(clock), None) <= p.maxInFlight
  }

  ghost predicate RowsInv(l: seq<Entry>, clock: int, p: Policy)
    requires p.Valid()
  {
    History(l, p) && Dated(l, clock) && CoversPaired(l) && Capped(l, clock, p)
  }

  ghost predicate BooksInv(db: Db) {
    && BooksBalance(db)
    && (forall u :: u in db.accounts ==> db.accounts[u].balance >= 0)
    && Sum(db.ledger, None) >= 0
    && (forall u: User :: Given(db.ledger, u) == LifetimeOf(db, u))
    && (forall u :: u in db.accounts && db.accounts[u].period.Some? ==>
          Period(u, db.accounts[u].period.value) in KeysOf(db.ledger))
    && (forall i :: 0 <= i < |db.ledger| && db.ledger[i].user.Some? && db.ledger[i].kind != CONSUME
          ==> db.ledger[i].user.value in db.accounts)
  }

  ghost predicate PlansInv(plans: seq<Plan>, l: seq<Entry>, clock: int) {
    && (forall i :: 0 <= i < |plans| ==>
          0 <= plans[i].used <= plans[i].included && plans[i].key.PlanSale? && plans[i].at <= clock)
    && (forall i, j :: 0 <= i < j < |plans| ==> plans[i].key != plans[j].key)
    && (forall i, j :: 0 <= i < j < |plans| && plans[i].user.Some? && plans[i].user == plans[j].user
          ==> plans[i].endsAt <= plans[j].at)
    && (forall i: nat, n: nat :: PlanSong(i, n) in KeysOf(l) <==> i < |plans| && n < plans[i].used)
    && (forall r :: 0 <= r < |l| && l[r].key.PlanSong? && l[r].key.plan < |plans|
          ==> l[r].at < plans[l[r].key.plan].endsAt)
  }

  ghost predicate SalesInv(db: Db) {
    forall k: Key :: k in db.topups <==> k.SingleSale? && k in KeysOf(db.ledger)
  }

  ghost predicate Inv(db: Db, clock: int, p: Policy) {
    p.Valid() && RowsInv(db.ledger, clock, p) && BooksInv(db)
    && PlansInv(db.plans, db.ledger, clock) && SalesInv(db)
  }

  const EMPTY := Db(map[], [], [], map[], {}, map[])

  lemma EmptyHolds(clock: int, p: Policy)
    requires p.Valid()
    ensures Inv(EMPTY, clock, p)
  {
    forall u: User ensures InFlight([], u, p.Cutoff(clock), None) <= p.maxInFlight {
      assert OpenDebits([], u, p.Cutoff(clock), None) == {};
    }
  }

  lemma TimePasses(db: Db, clock: int, now: int, p: Policy)
    requires Inv(db, clock, p) && clock <= now
    ensures Inv(db, now, p)
  {
    forall u: User ensures InFlight(db.ledger, u, p.Cutoff(now), None) <= p.maxInFlight {
      FlightAges(db.ledger, u, p.Cutoff(clock), p.Cutoff(now));
    }
  }

  // ---- one row at a time --------------------------------------------------------------------

  lemma RowKeepsCap(l: seq<Entry>, e: Entry, now: int, p: Policy)
    requires Capped(l, now, p) && e.kind != DEBIT
    ensures Capped(l + [e], now, p)
  {
    var c := p.Cutoff(now);
    forall u: User ensures InFlight(l + [e], u, c, None) <= p.maxInFlight {
      FlightAfterRow(l, e, u, c, None);
      SubsetSize(OpenDebits(l + [e], u, c, None), OpenDebits(l, u, c, None));
      assert InFlight(l, u, c, None) <= p.maxInFlight;
    }
  }

  lemma DebitKeepsCap(l: seq<Entry>, e: Entry, u: User, o: Uuid, now: int, p: Policy)
    requires p.Valid() && History(l, p) && Capped(l, now, p) && e.kind == DEBIT && e.user == Some(u)
    requires Net(l, o) >= 0 && InFlight(l, u, p.Cutoff(now), Some(o)) < p.maxInFlight
    ensures Capped(l + [e], now, p)
  {
    hide History;
    var c := p.Cutoff(now);
    FlightWithoutIdleOrder(l, u, c, o, p);
    forall v: User ensures InFlight(l + [e], v, c, None) <= p.maxInFlight {
      FlightAfterRow(l, e, v, c, None);
      var before := OpenDebits(l, v, c, None);
      assert InFlight(l, v, c, None) <= p.maxInFlight;
      SubsetSize(OpenDebits(l + [e], v, c, None), if v == u then before + {|l|} else before);
    }
  }

  lemma RowKeepsOrder(l: seq<Entry>, e: Entry, now: int)
    requires Dated(l, now) && e.at == now
    ensures Dated(l + [e], now)
  {
  }

  lemma RowKeepsRows(l: seq<Entry>, e: Entry, now: int, p: Policy)
    requires p.Valid() && RowsInv(l, now, p) && Shape(e, p) && e.kind != DEBIT && e.at == now
    requires e.key !in KeysOf(l)
    requires e.order.Some? ==> Advance(Replay(l, e.order.value), e).Some?
    requires e.key.Unenforced? ==> Debit(e.key.order, e.key.gen) in KeysOf(l)
    ensures RowsInv(l + [e], now, p)
  {
    hide History, Capped, Dated;
    AppendKeepsHistory(l, e, p);
    RowKeepsCap(l, e, now, p);
    RowKeepsOrder(l, e, now);
    Append(l, e);
  }

  lemma DebitKeepsRows(l: seq<Entry>, e: Entry, u: User, o: Uuid, now: int, p: Policy)
    requires p.Valid() && RowsInv(l, now, p) && e.user == Some(u) && e.at == now && e.delta < 0
    requires e.kind == DEBIT && e.order == Some(o) && e.gen == Generation(l, o) && e.key == Debit(o, e.gen)
    requires e.reason == ORDER_RENDER
    requires Net(l, o) >= 0 && InFlight(l, u, p.Cutoff(now), Some(o)) < p.maxInFlight
    ensures e.key !in KeysOf(l)
    ensures Unenforced(o, e.gen) !in KeysOf(l)
    ensures RowsInv(l + [e], now, p)
  {
    hide History, Capped, Dated;
    OrderStands(l, o, p);
    AppendKeepsHistory(l, e, p);
    DebitKeepsCap(l, e, u, o, now, p);
    RowKeepsOrder(l, e, now);
    Append(l, e);
  }

  // A row and the balance move that goes with it.
  lemma RowKeepsBooks(db: Db, e: Entry, u: User, after: Db)
    requires BooksInv(db) && e.user == Some(u) && u in db.accounts
    requires after.ledger == db.ledger + [e]
    requires after.accounts.Keys == db.accounts.Keys
    requires forall v :: v in db.accounts && v != u ==> after.accounts[v] == db.accounts[v]
    requires AccountMoved(db.accounts[u], after.accounts[u], u, e)
    ensures BooksInv(after)
  {
    hide KeysOf;
    Append(db.ledger, e);
    forall v: User
      ensures Sum(after.ledger, Some(v)) == BalanceOf(after, v) && Given(after.ledger, v) == LifetimeOf(after, v)
    {
      assert Sum(db.ledger, Some(v)) == BalanceOf(db, v) && Given(db.ledger, v) == LifetimeOf(db, v);
    }
  }

  // How the account row moves with a row of its own.
  ghost predicate AccountMoved(a: Account, b: Account, u: User, e: Entry) {
    && b.balance == a.balance + e.delta >= 0 && b.lifetime == a.lifetime + Delta(e, Gift(e))
    && (b.period == a.period || (b.period.Some? && e.key == Period(u, b.period.value)))
  }

  // Rows that name no plan song leave the plan books alone; likewise receipts.
  lemma RowKeepsPlans(plans: seq<Plan>, l: seq<Entry>, e: Entry, now: int)
    requires PlansInv(plans, l, now) && !e.key.PlanSong?
    ensures PlansInv(plans, l + [e], now)
  {
    Append(l, e);
    forall r | 0 <= r < |l + [e]| && (l + [e])[r].key.PlanSong? && (l + [e])[r].key.plan < |plans|
      ensures (l + [e])[r].at < plans[(l + [e])[r].key.plan].endsAt
    {
      assert r < |l| && (l + [e])[r] == l[r];
    }
  }

  lemma RowKeepsSales(db: Db, e: Entry, after: Db)
    requires SalesInv(db) && after.ledger == db.ledger + [e]
    requires after.topups.Keys == db.topups.Keys + (if e.key.SingleSale? then {e.key} else {})
    ensures SalesInv(after)
  {
    Append(db.ledger, e);
    forall k: Key ensures k in after.topups <==> k.SingleSale? && k in KeysOf(after.ledger) {
      assert k in after.topups <==> k in after.topups.Keys;
    }
  }

  // Everything a transaction that writes one row and names no plan song has to show.
  lemma RowKeeps(db: Db, e: Entry, u: User, after: Db, now: int, p: Policy)
    requires Inv(db, now, p) && Shape(e, p) && e.kind != DEBIT && e.at == now && !e.key.PlanSong?
    requires e.key !in KeysOf(db.ledger) && !e.key.Unenforced?
    requires e.order.Some? ==> Advance(Replay(db.ledger, e.order.value), e).Some?
    requires e.user == Some(u) && u in db.accounts && after.accounts.Keys == db.accounts.Keys
    requires forall v :: v in db.accounts && v != u ==> after.accounts[v] == db.accounts[v]
    requires AccountMoved(db.accounts[u], after.accounts[u], u, e)
    requires after.ledger == db.ledger + [e] && after.plans == db.plans
    requires after.topups.Keys == db.topups.Keys + (if e.key.SingleSale? then {e.key} else {})
    ensures Inv(after, now, p)
  {
    hide RowsInv, BooksInv, PlansInv, SalesInv;
    RowKeepsRows(db.ledger, e, now, p);
    RowKeepsBooks(db, e, u, after);
    RowKeepsPlans(db.plans, db.ledger, e, now);
    RowKeepsSales(db, e, after);
  }

  lemma BalanceNotNegative(db: Db, u: User)
    requires BooksInv(db) && u in db.accounts
    ensures db.accounts[u].balance >= 0
  {
  }

  lemma OpenedKeeps(db: Db, u: User, now: int, p: Policy)
    requires Inv(db, now, p)
    ensures Inv(Opened(db, u), now, p) && u in Opened(db, u).accounts
  {
    hide RowsInv, BooksInv, PlansInv;
    OpenedKeepsBooks(db, u);
  }

  lemma OpenedKeepsBooks(db: Db, u: User)
    requires BooksInv(db)
    ensures BooksInv(Opened(db, u))
  {
    hide KeysOf;
    var r := Opened(db, u);
    forall v: User ensures Sum(r.ledger, Some(v)) == BalanceOf(r, v) && Given(r.ledger, v) == LifetimeOf(r, v) {
      assert Sum(db.ledger, Some(v)) == BalanceOf(db, v) && Given(db.ledger, v) == LifetimeOf(db, v);
    }
  }

  lemma ArrivedKeeps(db: Db, u: User, now: int, p: Policy)
    requires Inv(db, now, p)
    ensures Inv(Arrived(db, u, now, p), now, p)
  {
    hide RowsInv, BooksInv, PlansInv, SalesInv;
    OpenedKeeps(db, u, now, p);
    var o := Opened(db, u);
    BalanceNotNegative(o, u);
    if AllowanceDue(o, u, now, p) {
      RowKeeps(o, AllowanceRow(o, u, now, p), u, Arrived(db, u, now, p), now, p);
    }
  }

  // ---- the plan song ----------------------------------------------------------------------------

  /** What a plan read promises at the moment of the claim, however stale it has become. */
  ghost predicate SightHolds(db: Db, sight: Option<PlanSight>, now: int) {
    sight.Some? ==>
      var s := sight.value;
      s.plan < |db.plans| && 0 <= s.used <= db.plans[s.plan].used
      && s.used < db.plans[s.plan].included && now < db.plans[s.plan].endsAt
  }

  lemma FreshSightHolds(db: Db, u: User, now: int, p: Policy)
    requires Inv(db, now, p)
    ensures SightHolds(db, Sighted(db, u, now), now)
  {
  }

  lemma SongTakenKeepsPlans(db: Db, u: User, sight: Option<PlanSight>, now: int)
    requires PlansInv(db.plans, db.ledger, now) && u in db.accounts && SightHolds(db, sight, now) && WinsSong(db, sight)
    ensures PlanSong(sight.value.plan, sight.value.used) !in KeysOf(db.ledger)
    ensures var r := SongTaken(db, u, sight, now); PlansInv(r.plans, r.ledger, now)
  {
    var r := SongTaken(db, u, sight, now);
    var e := Entry(Some(u), GRANT, PLAN_SONG, 1, None, 0, PlanSong(sight.value.plan, sight.value.used), now);
    Append(db.ledger, e);
    forall k | 0 <= k < |r.ledger| && r.ledger[k].key.PlanSong? && r.ledger[k].key.plan < |r.plans|
      ensures r.ledger[k].at < r.plans[r.ledger[k].key.plan].endsAt
    {
      if k < |db.ledger| { assert r.ledger[k] == db.ledger[k]; }
    }
  }

  lemma SongTakenKeeps(db: Db, u: User, sight: Option<PlanSight>, now: int, p: Policy)
    requires Inv(db, now, p) && u in db.accounts && SightHolds(db, sight, now)
    ensures Inv(SongTaken(db, u, sight, now), now, p)
  {
    hide RowsInv, BooksInv, PlansInv, SalesInv;
    if WinsSong(db, sight) {
      var r := SongTaken(db, u, sight, now);
      SongTakenKeepsPlans(db, u, sight, now);
      BalanceNotNegative(db, u);
      var e := Entry(Some(u), GRANT, PLAN_SONG, 1, None, 0, PlanSong(sight.value.plan, sight.value.used), now);
      RowKeepsRows(db.ledger, e, now, p);
      RowKeepsBooks(db, e, u, r);
      RowKeepsSales(db, e, r);
    }
  }

  // ---- paying ---------------------------------------------------------------------------------------

  lemma PaidFromBalanceKeeps(db: Db, u: User, o: Uuid, cost: int, now: int, p: Policy)
    requires Inv(db, now, p) && u in db.accounts && 1 <= cost <= db.accounts[u].balance
    requires Net(db.ledger, o) >= 0 && InFlight(db.ledger, u, p.Cutoff(now), Some(o)) < p.maxInFlight
    ensures Inv(PaidFromBalance(db, u, o, cost, now), now, p)
  {
    hide RowsInv, BooksInv, PlansInv, SalesInv;
    var e := DebitRow(db, u, o, cost, now);
    DebitKeepsRows(db.ledger, e, u, o, now, p);
    RowKeepsBooks(db, e, u, PaidFromBalance(db, u, o, cost, now));
    RowKeepsPlans(db.plans, db.ledger, e, now);
    RowKeepsSales(db, e, PaidFromBalance(db, u, o, cost, now));
  }

  lemma PaidInTheDarkKeeps(db: Db, u: User, o: Uuid, cost: int, now: int, p: Policy)
    requires Inv(db, now, p) && u in db.accounts && 1 <= cost
    requires Net(db.ledger, o) >= 0 && InFlight(db.ledger, u, p.Cutoff(now), Some(o)) < p.maxInFlight
    ensures Inv(PaidInTheDark(db, u, o, cost, now), now, p)
    ensures PaidInTheDark(db, u, o, cost, now)
         == db.(ledger := db.ledger + [DebitRow(db, u, o, cost, now)] + [CoverRow(db, u, o, cost, now)])
  {
    hide RowsInv, BooksInv, PlansInv, SalesInv;
    var e, c := DebitRow(db, u, o, cost, now), CoverRow(db, u, o, cost, now);
    DebitKeepsRows(db.ledger, e, u, o, now, p);
    Append(db.ledger, e);
    var l := db.ledger + [e];
    RowKeepsRows(l, c, now, p);
    RowKeepsPlans(db.plans, db.ledger, e, now);
    RowKeepsPlans(db.plans, l, c, now);
    var debited, r := Posted(db, e), PaidInTheDark(db, u, o, cost, now);
    RowKeepsSales(db, e, debited);
    RowKeepsSales(debited, c, r);
    CoverKeepsBooks(db, e, c, u, r);
  }

  lemma CoverKeepsBooks(db: Db, e: Entry, c: Entry, u: User, after: Db)
    requires BooksInv(db) && u in db.accounts && e.user == Some(u) == c.user
    requires e.delta + c.delta == 0 && !Gift(e) && !Gift(c)
    requires after.ledger == db.ledger + [e] + [c] && after.accounts == db.accounts
    ensures BooksInv(after)
  {
    hide KeysOf;
    Append(db.ledger, e);
    Append(db.ledger + [e], c);
    forall v: User
      ensures Sum(after.ledger, Some(v)) == BalanceOf(after, v) && Given(after.ledger, v) == LifetimeOf(after, v)
    {
      assert Sum(db.ledger, Some(v)) == BalanceOf(db, v) && Given(db.ledger, v) == LifetimeOf(db, v);
    }
  }

  lemma ChargeKeeps(db: Db, u: User, o: Uuid, cost: int, now: int, p: Policy, sight: Option<PlanSight>)
    requires p.Valid() && Inv(db, now, p) && SightHolds(db, sight, now)
    ensures Inv(ChargeTx(db, u, o, cost, now, p, sight).1, now, p)
  {
    hide Inv;
    ArrivedKeeps(db, u, now, p);
    var a := Arrived(db, u, now, p);
    SongTakenKeeps(a, u, sight, now, p);
    var s := SongTaken(a, u, sight, now);
    if cost >= 1 && Net(a.ledger, o) >= 0 && InFlight(a.ledger, u, p.Cutoff(now), Some(o)) < p.maxInFlight {
      SongLeavesOrders(a, u, sight, now, o, p);
      if s.accounts[u].balance >= cost {
        PaidFromBalanceKeeps(s, u, o, cost, now, p);
      } else {
        PaidInTheDarkKeeps(s, u, o, cost, now, p);
      }
    }
  }

  // Minting a song touches no order and nobody's open debits.
  lemma SongLeavesOrders(db: Db, u: User, sight: Option<PlanSight>, now: int, o: Uuid, p: Policy)
    requires u in db.accounts
    ensures var s := SongTaken(db, u, sight, now);
      && Net(s.ledger, o) == Net(db.ledger, o) && Generation(s.ledger, o) == Generation(db.ledger, o)
      && InFlight(s.ledger, u, p.Cutoff(now), Some(o)) <= InFlight(db.ledger, u, p.Cutoff(now), Some(o))
  {
    var s := SongTaken(db, u, sight, now);
    if |s.ledger| > |db.ledger| {
      var e := s.ledger[|db.ledger|];
      assert s.ledger == db.ledger + [e];
      Append(db.ledger, e);
      FlightAfterRow(db.ledger, e, u, p.Cutoff(now), Some(o));
      SubsetSize(OpenDebits(s.ledger, u, p.Cutoff(now), Some(o)), OpenDebits(db.ledger, u, p.Cutoff(now), Some(o)));
    }
  }

  // ---- settling -----------------------------------------------------------------------------------------

  lemma InvRows(db: Db, now: int, p: Policy)
    requires Inv(db, now, p)
    ensures History(db.ledger, p)
  {
  }

  lemma RefundKeeps(db: Db, u: User, o: Uuid, reason: Reason, now: int, p: Policy)
    requires Inv(db, now, p) && reason != UNENFORCED_RENDER
    ensures Inv(RefundTx(db, u, o, reason, now).1, now, p)
  {
    hide History, RowsInv, PlansInv, SalesInv;
    InvRows(db, now, p);
    OrderStands(db.ledger, o, p);
    var (wrote, r) := RefundTx(db, u, o, reason, now);
    if wrote {
      var g := Generation(db.ledger, o);
      var e := Entry(Some(u), REFUND, reason, -Net(db.ledger, o), Some(o), g, Refund(o, g), now);
      RowKeeps(db, e, u, r, now, p);
    }
  }

  lemma ConsumeKeeps(db: Db, u: User, o: Uuid, reason: Reason, now: int, p: Policy)
    requires Inv(db, now, p) && reason != UNENFORCED_RENDER
    ensures Inv(ConsumeTx(db, u, o, reason, now).1, now, p)
  {
    hide History, RowsInv, PlansInv, SalesInv, BooksInv;
    InvRows(db, now, p);
    OrderStands(db.ledger, o, p);
    var (wrote, r) := ConsumeTx(db, u, o, reason, now);
    if wrote {
      var g := Generation(db.ledger, o);
      var e := Entry(Some(u), CONSUME, reason, 0, Some(o), g, Consume(o, g), now);
      RowKeepsRows(db.ledger, e, now, p);
      RowKeepsPlans(db.plans, db.ledger, e, now);
      RowKeepsSales(db, e, r);
      ConsumeKeepsBooks(db, e, r);
    }
  }

  // A consumption may carry the id of somebody who has since been erased; it moves nothing.
  lemma ConsumeKeepsBooks(db: Db, e: Entry, after: Db)
    requires BooksInv(db) && e.kind == CONSUME && e.delta == 0
    requires after.ledger == db.ledger + [e] && after.accounts == db.accounts
    ensures BooksInv(after)
  {
    hide KeysOf;
    Append(db.ledger, e);
    forall v: User
      ensures Sum(after.ledger, Some(v)) == BalanceOf(after, v) && Given(after.ledger, v) == LifetimeOf(after, v)
    {
      assert Sum(db.ledger, Some(v)) == BalanceOf(db, v) && Given(db.ledger, v) == LifetimeOf(db, v);
    }
  }

  lemma SettleKeeps(db: Db, u: User, o: Uuid, outcome: Outcome, now: int, p: Policy)
    requires Inv(db, now, p)
    ensures Inv(SettleTx(db, u, o, outcome, now).1, now, p)
  {
    hide Inv, RefundTx, ConsumeTx;
    RefundKeeps(db, u, o, ORDER_FAILED, now, p);
    ConsumeKeeps(db, u, o, ORDER_DELIVERED, now, p);
    ConsumeKeeps(db, u, o, ORDER_NOT_DELIVERED, now, p);
  }

  lemma {:induction false} CloseAllKeeps(db: Db, stales: seq<StaleDebit>, now: int, p: Policy)
    requires Inv(db, now, p)
    ensures Inv(CloseAll(db, stales, now).1, now, p)
  {
    if stales != [] {
      CloseAllKeeps(db, stales[..|stales| - 1], now, p);
      var swept := CloseAll(db, stales[..|stales| - 1], now).1;
      var last := stales[|stales| - 1];
      ConsumeKeeps(swept, last.user, last.order, STALE_SETTLEMENT, now, p);
      RefundKeeps(swept, last.user, last.order, STALE_SETTLEMENT, now, p);
    }
  }

  // ---- grants, sales, erasure ------------------------------------------------------------------------------

  lemma AdminGrantKeeps(db: Db, u: User, credits: int, tail: string, now: int, p: Policy)
    requires Inv(db, now, p)
    ensures Inv(GrantTx(db, u, credits, AdminGrant(tail), ADMIN_GRANT, now).1, now, p)
  {
    hide RowsInv, BooksInv, PlansInv, SalesInv;
    OpenedKeeps(db, u, now, p);
    BalanceNotNegative(Opened(db, u), u);
    var (wrote, r) := GrantTx(db, u, credits, AdminGrant(tail), ADMIN_GRANT, now);
    if wrote == Some(true) {
      var e := Entry(Some(u), GRANT, ADMIN_GRANT, credits, None, 0, AdminGrant(tail), now);
      RowKeeps(Opened(db, u), e, u, r, now, p);
    }
  }

  // Receipt and grant are keyed alike, so a replay finds either both or neither.
  lemma SingleSaleWritesBoth(db: Db, u: User, purchase: Purchase, tail: string, now: int)
    requires SalesInv(db) && purchase.isPaid && purchase.product == SINGLE
    ensures SingleSale(tail) in db.topups <==> SingleSale(tail) in KeysOf(db.ledger)
  {
  }

  lemma SingleSaleKeeps(db: Db, u: User, purchase: Purchase, tail: string, now: int, p: Policy)
    requires Inv(db, now, p)
    ensures Inv(SingleSaleTx(db, u, purchase, tail, now).1, now, p)
  {
    hide RowsInv, BooksInv, PlansInv, SalesInv;
    OpenedKeeps(db, u, now, p);
    if purchase.isPaid && purchase.product == SINGLE {
      SingleSaleWritesBoth(db, u, purchase, tail, now);
      BalanceNotNegative(Opened(db, u), u);
      var k, o, r := SingleSale(tail), Opened(db, u), SingleSaleTx(db, u, purchase, tail, now).1;
      if k !in db.topups {
        RowKeeps(o, Entry(Some(u), GRANT, TOPUP_PURCHASE, TOPUP_CREDITS, None, 0, k, now), u, r, now, p);
      }
    }
  }

  lemma PlanSaleKeeps(db: Db, u: User, purchase: Purchase, songs: int, days: int, tail: string, now: int, p: Policy)
    requires Inv(db, now, p)
    ensures Inv(PlanSaleTx(db, u, purchase, songs, days, tail, now).1, now, p)
  {
    var r := PlanSaleTx(db, u, purchase, songs, days, tail, now).1;
    if r != db {
      forall i, j | 0 <= i < j < |r.plans| && r.plans[i].user.Some? && r.plans[i].user == r.plans[j].user
        ensures r.plans[i].endsAt <= r.plans[j].at
      {
        if j == |db.plans| {
          assert !Matches(db.plans[i], u, now, false);
        }
      }
    }
  }

  lemma ForgetKeepsRows(db: Db, u: User, now: int, p: Policy)
    requires p.Valid() && RowsInv(db.ledger, now, p)
    ensures RowsInv(Anonymised(db.ledger, u), now, p)
  {
    hide History;
    var l := Anonymised(db.ledger, u);
    ErasureKeepsHistory(db.ledger, u, p);
    ErasureKeepsKeys(db.ledger, u);
    forall v: User ensures InFlight(l, v, p.Cutoff(now), None) <= p.maxInFlight {
      ErasureEmptiesFlight(db.ledger, u, v, p.Cutoff(now));
      assert InFlight(db.ledger, v, p.Cutoff(now), None) <= p.maxInFlight;
    }
  }

  lemma ForgetKeepsBooks(db: Db, u: User)
    requires BooksInv(db)
    ensures BooksInv(ForgetTx(db, u))
  {
    hide KeysOf;
    var r := ForgetTx(db, u);
    ErasureMovesSums(db.ledger, u);
    ErasureKeepsKeys(db.ledger, u);
    forall v: User ensures Sum(r.ledger, Some(v)) == BalanceOf(r, v) && Given(r.ledger, v) == LifetimeOf(r, v) {
      assert Sum(db.ledger, Some(v)) == BalanceOf(db, v) && Given(db.ledger, v) == LifetimeOf(db, v);
    }
    assert Sum(db.ledger, Some(u)) == BalanceOf(db, u);
  }

  lemma ForgetKeeps(db: Db, u: User, now: int, p: Policy)
    requires Inv(db, now, p)
    ensures Inv(ForgetTx(db, u), now, p)
  {
    hide RowsInv, BooksInv;
    ForgetKeepsRows(db, u, now, p);
    ForgetKeepsBooks(db, u);
    ErasureKeepsKeys(db.ledger, u);
  }

  // ---- runs ------------------------------------------------------------------------------------------------

  /** Which open debits one sweep works on: oldest first, at most `limit` of them. */
  ghost predicate IsSelection(db: Db, cutoff: int, limit: nat, picks: seq<nat>) {
    && |picks| <= limit
    && (forall k :: 0 <= k < |picks| ==> picks[k] < |db.ledger| && IsStale(db, picks[k], cutoff))
    && (forall j, k :: 0 <= j < k < |picks| ==>
          picks[j] != picks[k] && db.ledger[picks[j]].at <= db.ledger[picks[k]].at)
    && (forall i: nat :: i < |db.ledger| && IsStale(db, i, cutoff) && i !in picks ==>
          |picks| == limit && forall k :: 0 <= k < |picks| ==> db.ledger[picks[k]].at <= db.ledger[i].at)
  }

  function StalesAt(db: Db, picks: seq<nat>): (r: seq<StaleDebit>)
    requires forall k :: 0 <= k < |picks| ==>
      picks[k] < |db.ledger| && db.ledger[picks[k]].user.Some? && db.ledger[picks[k]].order.Some?
    ensures |r| == |picks| && forall k :: 0 <= k < |picks| ==> r[k] == StaleAt(db, picks[k])
  {
    seq(|picks|, k requires 0 <= k < |picks| => StaleAt(db, picks[k]))
  }

  datatype Step =
    | ChargeStep(u: User, o: Uuid, cost: int, sight: Option<PlanSight>)
    | SettleStep(u: User, o: Uuid, outcome: Outcome)
    | SweepStep(cutoff: int, limit: nat, picks: seq<nat>)
    | AdminGrantStep(u: User, credits: int, tail: string)
    | SingleSaleStep(u: User, purchase: Purchase, tail: string)
    | PlanSaleStep(u: User, purchase: Purchase, songs: int, days: int, tail: string)
    | ForgetStep(u: User)
    | BlockStep(u: User, isBlocked: bool)
    | OrderMovedStep(o: Uuid, row: OrderRow)

  ghost predicate Enabled(db: Db, step: Step, now: int) {
    match step
    case ChargeStep(_, _, _, sight) => SightHolds(db, sight, now)
    case SweepStep(cutoff, limit, picks) => IsSelection(db, cutoff, limit, picks)
    case _ => true
  }

  ghost function Apply(db: Db, step: Step, now: int, p: Policy): Db
    requires p.Valid() && Enabled(db, step, now)
  {
    match step
    case ChargeStep(u, o, cost, sight) => ChargeTx(db, u, o, cost, now, p, sight).1
    case SettleStep(u, o, outcome) => SettleTx(db, u, o, outcome, now).1
    case SweepStep(_, _, picks) => CloseAll(db, StalesAt(db, picks), now).1
    case AdminGrantStep(u, credits, tail) => GrantTx(db, u, credits, AdminGrant(tail), ADMIN_GRANT, now).1
    case SingleSaleStep(u, purchase, tail) => SingleSaleTx(db, u, purchase, tail, now).1
    case PlanSaleStep(u, purchase, songs, days, tail) => PlanSaleTx(db, u, purchase, songs, days, tail, now).1
    case ForgetStep(u) => ForgetTx(db, u)
    case BlockStep(u, isBlocked) => SetBlockedTx(db, u, isBlocked)
    case OrderMovedStep(o, row) => OrderMovedTx(db, o, row)
  }

  lemma StepKeeps(db: Db, step: Step, clock: int, now: int, p: Policy)
    requires Inv(db, clock, p) && clock <= now && Enabled(db, step, now)
    ensures Inv(Apply(db, step, now, p), now, p)
  {
    TimePasses(db, clock, now, p);
    match step
    case ChargeStep(u, o, cost, sight) => ChargeKeeps(db, u, o, cost, now, p, sight);
    case SettleStep(u, o, outcome) => SettleKeeps(db, u, o, outcome, now, p);
    case SweepStep(_, _, picks) => CloseAllKeeps(db, StalesAt(db, picks), now, p);
    case AdminGrantStep(u, credits, tail) => AdminGrantKeeps(db, u, credits, tail, now, p);
    case SingleSaleStep(u, purchase, tail) => SingleSaleKeeps(db, u, purchase, tail, now, p);
    case PlanSaleStep(u, purchase, songs, days, tail) => PlanSaleKeeps(db, u, purchase, songs, days, tail, now, p);
    case ForgetStep(u) => ForgetKeeps(db, u, now, p);
    case BlockStep(u, isBlocked) =>
      var r := SetBlockedTx(db, u, isBlocked);
      assert forall v: User :: BalanceOf(r, v) == BalanceOf(db, v);
    case OrderMovedStep(o, row) =>
      var r := OrderMovedTx(db, o, row);
      assert forall v: User :: BalanceOf(r, v) == BalanceOf(db, v);
  }

  datatype Timed = Timed(now: int, step: Step)

  /** Any interleaving of transactions under a clock that never runs backwards. */
  ghost predicate IsRun(states: seq<Db>, steps: seq<Timed>, start: int, p: Policy) {
    && p.Valid() && |states| == |steps| + 1
    && (forall i :: 0 <= i < |steps| ==>
          && ClockAt(steps, start, i) <= steps[i].now
          && Enabled(states[i], steps[i].step, steps[i].now)
          && states[i + 1] == Apply(states[i], steps[i].step, steps[i].now, p))
  }

  function ClockAt(steps: seq<Timed>, start: int, i: nat): int
    requires i <= |steps|
  {
    if i == 0 then start else steps[i - 1].now
  }

  /** The invariant holds in every state of every run that starts in one. */
  lemma {:induction false} RunKeeps(states: seq<Db>, steps: seq<Timed>, start: int, p: Policy, i: nat)
    requires IsRun(states, steps, start, p) && Inv(states[0], start, p) && i <= |steps|
    ensures Inv(states[i], ClockAt(steps, start, i), p)
  {
    hide Inv;
    if i > 0 {
      RunKeeps(states, steps, start, p, i - 1);
      StepKeeps(states[i - 1], steps[i - 1].step, ClockAt(steps, start, i - 1), steps[i - 1].now, p);
    }
  }

  /**
   * At every instant of every run, enforced or not, nobody has more unsettled debits younger
   * than the grace than the cap allows; and the stored balance and the lifetime total equal
   * what the rows add up to.
   */
  lemma CapAndBooksHoldThroughout(states: seq<Db>, steps: seq<Timed>, start: int, p: Policy, i: nat, u: User, now: int)
    requires IsRun(states, steps, start, p) && Inv(states[0], start, p) && i <= |steps| && now >= ClockAt(steps, start, i)
    ensures |Rendering(states[i].ledger, u, now, p.grace, None)| <= p.maxInFlight
    ensures Sum(states[i].ledger, Some(u)) == BalanceOf(states[i], u) >= 0
    ensures Given(states[i].ledger, u) == LifetimeOf(states[i], u)
  {
    RunKeeps(states, steps, start, p, i);
    TimePasses(states[i], ClockAt(steps, start, i), now, p);
    BooksTell(states[i], u, now, p);
    FlightIsRendering(states[i].ledger, u, now, p, None);
    hide RowsInv, BooksInv, PlansInv, SalesInv, IsRun;
  }

  lemma BooksTell(db: Db, u: User, now: int, p: Policy)
    requires Inv(db, now, p)
    ensures InFlight(db.ledger, u, p.Cutoff(now), None) <= p.maxInFlight
    ensures Sum(db.ledger, Some(u)) == BalanceOf(db, u) >= 0 && Given(db.ledger, u) == LifetimeOf(db, u)
  {
    assert BooksBalance(db) && Capped(db.ledger, now, p);
    hide History, Dated, CoversPaired, PlansInv, SalesInv;
  }
}
