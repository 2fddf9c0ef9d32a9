/**
 * The credit meter's tables and its transactions, as functions on values.
 *
 * One function is one database transaction: it answers what the caller is told and what
 * the tables hold afterwards. The class in CreditStore carries the same transactions out
 * in place, statement by statement, and is proved equal to these.
 */
module Ledger {
  import opened Option
  import opened Keys
  import opened Periods

  type User = int

  datatype EntryKind = GRANT | DEBIT | REFUND | CONSUME

  datatype Reason =
    | SIGNUP_ALLOWANCE | PERIOD_ALLOWANCE | PLAN_SONG | ADMIN_GRANT | TOPUP_PURCHASE
    | ORDER_RENDER | UNENFORCED_RENDER
    | ORDER_FAILED | ORDER_DELIVERED | ORDER_NOT_DELIVERED | STALE_SETTLEMENT

  /** One row of the append-only ledger. Erasure clears `user` and nothing else. */
  datatype Entry = Entry(user: Option<User>, kind: EntryKind, reason: Reason, delta: int,
                         order: Option<Uuid>, gen: nat, key: Key, at: int)

  datatype Account = Account(balance: int, lifetime: int, period: Option<int>)

  /** A plan's receipt. Its row identity is its position in `Db.plans`. */
  datatype Plan = Plan(user: Option<User>, included: int, used: int, amount: int,
                       reference: string, key: Key, endsAt: int, at: int)

  /** A single-song receipt, keyed by the string the ledger grant is keyed by. */
  datatype Receipt = Receipt(user: Option<User>, credits: int, amount: int, reference: string, at: int)

  datatype OrderState =
    | DRAFT | BRIEF_READY | LYRICS_READY | AUTHORIZED | GENERATING | DELIVERED | FAILED | CANCELLED

  datatype OrderRow = OrderRow(state: OrderState, updatedAt: int)

  datatype Db = Db(accounts: map<User, Account>, ledger: seq<Entry>, plans: seq<Plan>,
                   topups: map<Key, Receipt>, blocked: set<User>, orders: map<Uuid, OrderRow>)

  datatype Policy = Policy(allowance: int, periodDays: int, maxInFlight: int, grace: int, enforced: bool)
  {
    predicate Valid() {
      allowance >= 0 && periodDays >= 1 && maxInFlight >= 1 && grace >= 1
    }
    // The instant before which an unsettled debit stops counting.
    function Cutoff(now: int): int { now - grace * SECOND }
  }

  /** The policy a caller gets by naming none. */
  const SHIPPED := Policy(3, 30, 1, 4550, true)

  // ---- reads -----------------------------------------------------------------------

  function KeysOf(l: seq<Entry>): set<Key> {
    set i | 0 <= i < |l| :: l[i].key
  }

  /** What one owner's rows add up to; `None` collects the erased ones. */
  function Sum(l: seq<Entry>, u: Option<User>): int {
    if l == [] then 0 else
      Sum(l[..|l| - 1], u) + (if l[|l| - 1].user == u then l[|l| - 1].delta else 0)
  }

  // A credit given, as against one returned or one that covers a dark render.
  predicate Gift(e: Entry) { e.kind == GRANT && e.reason != UNENFORCED_RENDER }

  /** What one owner has been given outright. */
  function Given(l: seq<Entry>, u: User): int {
    if l == [] then 0 else
      Given(l[..|l| - 1], u) + (if l[|l| - 1].user == Some(u) && Gift(l[|l| - 1]) then l[|l| - 1].delta else 0)
  }

  /** An order's net position, whoever the rows belong to. Negative means paid for. */
  function Net(l: seq<Entry>, o: Uuid): int {
    if l == [] then 0 else
      Net(l[..|l| - 1], o) + (if l[|l| - 1].order == Some(o) then l[|l| - 1].delta else 0)
  }

  /** The charge attempt an order is on: one per refund it has had. */
  function Generation(l: seq<Entry>, o: Uuid): nat {
    if l == [] then 0 else
      Generation(l[..|l| - 1], o) + (if l[|l| - 1].order == Some(o) && l[|l| - 1].kind == REFUND then 1 else 0)
  }

  // The correlated EXISTS shared by the in-flight count and the sweep.
  predicate Settled(l: seq<Entry>, order: Option<Uuid>, gen: nat) {
    exists j :: 0 <= j < |l| && l[j].order == order && l[j].gen == gen && l[j].kind in {REFUND, CONSUME}
  }

  predicate IsOpenDebit(l: seq<Entry>, i: nat)
    requires i < |l|
  {
    l[i].kind == DEBIT && !Settled(l, l[i].order, l[i].gen)
  }

  function OpenDebits(l: seq<Entry>, u: User, cutoff: int, excluded: Option<Uuid>): set<int> {
    set i | 0 <= i < |l| && l[i].user == Some(u) && l[i].at >= cutoff
            && (excluded == None || l[i].order != excluded) && IsOpenDebit(l, i)
  }

  function InFlight(l: seq<Entry>, u: User, cutoff: int, excluded: Option<Uuid>): nat {
    |OpenDebits(l, u, cutoff, excluded)|
  }

  predicate IsCurrent(plan: Plan, u: User, now: int) {
    plan.user == Some(u) && plan.endsAt > now
  }

  predicate Matches(plan: Plan, u: User, now: int, unspent: bool) {
    IsCurrent(plan, u, now) && (unspent ==> plan.used < plan.included)
  }

  /** The running plan that ends last; `unspent` asks for one that still has a song. */
  function PickPlan(plans: seq<Plan>, u: User, now: int, unspent: bool): (r: Option<nat>)
    ensures r.Some? ==> r.value < |plans| && Matches(plans[r.value], u, now, unspent)
    ensures r.Some? ==> forall i :: 0 <= i < |plans| && Matches(plans[i], u, now, unspent)
                                    ==> plans[i].endsAt <= plans[r.value].endsAt
    ensures r.None? ==> forall i :: 0 <= i < |plans| ==> !Matches(plans[i], u, now, unspent)
  {
    if plans == [] then None else
      var n := |plans| - 1;
      var earlier := PickPlan(plans[..n], u, now, unspent);
      if Matches(plans[n], u, now, unspent)
         && (earlier.None? || plans[earlier.value].endsAt <= plans[n].endsAt)
      then Some(n) else earlier
  }

  function LivePlan(db: Db, u: User, now: int): Option<nat> {
    PickPlan(db.plans, u, now, true)
  }

  function CurrentPlan(db: Db, u: User, now: int): Option<nat> {
    PickPlan(db.plans, u, now, false)
  }

  function BalanceOf(db: Db, u: User): int {
    if u in db.accounts then db.accounts[u].balance else 0
  }

  function LifetimeOf(db: Db, u: User): int {
    if u in db.accounts then db.accounts[u].lifetime else 0
  }

  function MintedIndex(db: Db, u: User): Option<int> {
    if u in db.accounts then db.accounts[u].period else None
  }

  /** Has this window's allowance yet to be minted? The surviving key has the last word. */
  predicate WindowUnminted(db: Db, u: User, now: int, p: Policy)
    requires p.Valid()
  {
    var index := PeriodIndex(now, p.periodDays);
    (MintedIndex(db, u).None? || MintedIndex(db, u).value < index) && Period(u, index) !in KeysOf(db.ledger)
  }

  datatype CreditBalance = CreditBalance(user: User, credits: int, inFlight: nat, isBlocked: bool,
                                         planSongsLeft: int, planEndsAt: Option<int>)

  /** The read-only projection a gate sees. Writes nothing. */
  function ReadBalance(db: Db, u: User, now: int, p: Policy, excluded: Option<Uuid>): CreditBalance
    requires p.Valid()
  {
    var live := LivePlan(db, u, now);
    var songsLeft := if live.Some? then db.plans[live.value].included - db.plans[live.value].used else 0;
    var shown := if live.Some? then live else CurrentPlan(db, u, now);
    CreditBalance(
      u,
      BalanceOf(db, u) + (if WindowUnminted(db, u, now, p) then p.allowance else 0) + songsLeft,
      InFlight(db.ledger, u, p.Cutoff(now), excluded),
      u in db.blocked,
      songsLeft,
      if shown.Some? then Some(db.plans[shown.value].endsAt) else None)
  }

  // ---- the steps of a transaction ----------------------------------------------------

  function Opened(db: Db, u: User): Db {
    if u in db.accounts then db else db.(accounts := db.accounts[u := Account(0, 0, None)])
  }

  function Posted(db: Db, e: Entry): Db {
    db.(ledger := db.ledger + [e])
  }

  function Credited(db: Db, u: User, credits: int, lifetime: int): Db
    requires u in db.accounts
  {
    var a := db.accounts[u];
    db.(accounts := db.accounts[u := a.(balance := a.balance + credits, lifetime := a.lifetime + lifetime)])
  }

  function Stamped(db: Db, u: User, index: int): Db
    requires u in db.accounts
  {
    db.(accounts := db.accounts[u := db.accounts[u].(period := Some(index))])
  }

  predicate AllowanceDue(db: Db, u: User, now: int, p: Policy)
    requires p.Valid()
  {
    p.allowance >= 1 && WindowUnminted(db, u, now, p)
  }

  function AllowanceRow(db: Db, u: User, now: int, p: Policy): Entry
    requires p.Valid()
  {
    Entry(Some(u), GRANT, if MintedIndex(db, u).None? then SIGNUP_ALLOWANCE else PERIOD_ALLOWANCE,
          p.allowance, None, 0, Period(u, PeriodIndex(now, p.periodDays)), now)
  }

  /** Opening the account and minting this window's allowance, if it is due. */
  function Arrived(db: Db, u: User, now: int, p: Policy): (r: Db)
    requires p.Valid()
    ensures u in r.accounts && r.plans == db.plans && r.blocked == db.blocked
  {
    var o := Opened(db, u);
    if AllowanceDue(o, u, now, p) then
      var posted := Posted(o, AllowanceRow(o, u, now, p));
      Stamped(Credited(posted, u, p.allowance, p.allowance), u, PeriodIndex(now, p.periodDays))
    else o
  }

  /** What a charge remembers of the plan it read before it tries to take a song from it. */
  datatype PlanSight = PlanSight(plan: nat, used: int)

  function Sighted(db: Db, u: User, now: int): Option<PlanSight> {
    var live := LivePlan(db, u, now);
    if live.None? then None else Some(PlanSight(live.value, db.plans[live.value].used))
  }

  predicate WinsSong(db: Db, sight: Option<PlanSight>) {
    sight.Some? && sight.value.plan < |db.plans| && db.plans[sight.value.plan].used == sight.value.used
    && sight.value.used >= 0
  }

  function SongTaken(db: Db, u: User, sight: Option<PlanSight>, now: int): (r: Db)
    requires u in db.accounts
    ensures u in r.accounts
  {
    if WinsSong(db, sight) then
      var i, used := sight.value.plan, sight.value.used;
      var bumped := db.(plans := db.plans[i := db.plans[i].(used := used + 1)]);
      var row := Entry(Some(u), GRANT, PLAN_SONG, 1, None, 0, PlanSong(i, used), now);
      if row.key in KeysOf(db.ledger) then bumped else Credited(Posted(bumped, row), u, 1, 1)
    else db
  }

  function DebitRow(db: Db, u: User, o: Uuid, cost: int, now: int): Entry {
    var g := Generation(db.ledger, o);
    Entry(Some(u), DEBIT, ORDER_RENDER, -cost, Some(o), g, Debit(o, g), now)
  }

  function CoverRow(db: Db, u: User, o: Uuid, cost: int, now: int): Entry {
    Entry(Some(u), GRANT, UNENFORCED_RENDER, cost, None, 0, Unenforced(o, Generation(db.ledger, o)), now)
  }

  function PaidFromBalance(db: Db, u: User, o: Uuid, cost: int, now: int): Db
    requires u in db.accounts
  {
    Credited(Posted(db, DebitRow(db, u, o, cost, now)), u, -cost, 0)
  }

  // The grant covers the debit exactly and carries no order, so the balance and the
  // order's net position both read as if the credit had been there.
  function PaidInTheDark(db: Db, u: User, o: Uuid, cost: int, now: int): Db {
    var debited := Posted(db, DebitRow(db, u, o, cost, now));
    var cover := CoverRow(db, u, o, cost, now);
    if cover.key in KeysOf(debited.ledger) then debited else Posted(debited, cover)
  }

  // ---- transactions ------------------------------------------------------------------

  datatype ChargeResult =
    | Charged(balance: CreditBalance)
    | AlreadyPaid(balance: CreditBalance)
    | BadCost
    | AccountBlocked
    | TooManyInFlight(inFlight: nat)
    | InsufficientCredits(shown: int, nextGrantAt: int)
    | StorageFault

  /** Pay for an order once. Every refusal rolls the whole transaction back. */
  function ChargeTx(db: Db, u: User, o: Uuid, cost: int, now: int, p: Policy,
                    sight: Option<PlanSight>): (ChargeResult, Db)
    requires p.Valid()
  {
    if cost < 1 then (BadCost, db)
    else
      var a := Arrived(db, u, now, p);
      var state := ReadBalance(a, u, now, p, Some(o));
      if state.isBlocked then (AccountBlocked, db)
      else if Net(a.ledger, o) < 0 then (AlreadyPaid(ReadBalance(a, u, now, p, None)), a)
      else if state.inFlight >= p.maxInFlight then (TooManyInFlight(state.inFlight), db)
      else
        var s := SongTaken(a, u, sight, now);
        if Debit(o, Generation(s.ledger, o)) in KeysOf(s.ledger) then
          (AlreadyPaid(ReadBalance(s, u, now, p, None)), s)
        else if s.accounts[u].balance >= cost then
          var paid := PaidFromBalance(s, u, o, cost, now);
          (Charged(ReadBalance(paid, u, now, p, None)), paid)
        else if p.enforced then
          var next := PeriodStart(PeriodIndex(now, p.periodDays) + 1, p.periodDays);
          (InsufficientCredits(state.credits, next), db)
        else if s.accounts[u].balance < 0 then (StorageFault, db)
        else
          var paid := PaidInTheDark(s, u, o, cost, now);
          (Charged(ReadBalance(paid, u, now, p, None)), paid)
  }

  /** A charge whose plan read is not overtaken by another charge. */
  function Charge(db: Db, u: User, o: Uuid, cost: int, now: int, p: Policy): (ChargeResult, Db)
    requires p.Valid()
  {
    ChargeTx(db, u, o, cost, now, p, Sighted(db, u, now))
  }

  function RefundTx(db: Db, u: User, o: Uuid, reason: Reason, now: int): (bool, Db) {
    var net := Net(db.ledger, o);
    var g := Generation(db.ledger, o);
    if net >= 0 || u !in db.accounts || Refund(o, g) in KeysOf(db.ledger) then (false, db)
    else
      var row := Entry(Some(u), REFUND, reason, -net, Some(o), g, Refund(o, g), now);
      (true, Credited(Posted(db, row), u, -net, 0))
  }

  function ConsumeTx(db: Db, u: User, o: Uuid, reason: Reason, now: int): (bool, Db) {
    var net := Net(db.ledger, o);
    var g := Generation(db.ledger, o);
    if net >= 0 || Consume(o, g) in KeysOf(db.ledger) then (false, db)
    else (true, Posted(db, Entry(Some(u), CONSUME, reason, 0, Some(o), g, Consume(o, g), now)))
  }

  datatype Outcome = DELIVERED_OK | NOT_DELIVERED | RENDER_FAILED

  /** Only a terminal failure refunds; a kit the client refused is consumed. */
  function SettleTx(db: Db, u: User, o: Uuid, outcome: Outcome, now: int): (bool, Db) {
    match outcome
    case RENDER_FAILED => RefundTx(db, u, o, ORDER_FAILED, now)
    case DELIVERED_OK => ConsumeTx(db, u, o, ORDER_DELIVERED, now)
    case NOT_DELIVERED => ConsumeTx(db, u, o, ORDER_NOT_DELIVERED, now)
  }

  /** An open debit the sweep has decided to close. */
  datatype StaleDebit = StaleDebit(user: User, order: Uuid, state: Option<OrderState>)

  predicate OrderIsOver(db: Db, o: Uuid) {
    o in db.orders && db.orders[o].state == CANCELLED
  }

  // Quiet: the debit is old and its order row, if there is one, has not moved either.
  predicate OrderIsQuiet(db: Db, e: Entry, o: Uuid, cutoff: int) {
    e.at <= cutoff && (o !in db.orders || db.orders[o].updatedAt <= cutoff)
  }

  predicate IsStale(db: Db, i: nat, cutoff: int)
    requires i < |db.ledger|
  {
    var e := db.ledger[i];
    e.user.Some? && e.order.Some? && IsOpenDebit(db.ledger, i)
    && (OrderIsOver(db, e.order.value) || OrderIsQuiet(db, e, e.order.value, cutoff))
  }

  function StaleAt(db: Db, i: nat): StaleDebit
    requires i < |db.ledger| && db.ledger[i].user.Some? && db.ledger[i].order.Some?
  {
    var o := db.ledger[i].order.value;
    StaleDebit(db.ledger[i].user.value, o, if o in db.orders then Some(db.orders[o].state) else None)
  }

  function CloseStale(db: Db, stale: StaleDebit, now: int): (bool, Db) {
    if stale.state == Some(DELIVERED) then ConsumeTx(db, stale.user, stale.order, STALE_SETTLEMENT, now)
    else RefundTx(db, stale.user, stale.order, STALE_SETTLEMENT, now)
  }

  /** The sweep's loop: settle each selected debit in turn, counting those it closed. */
  function CloseAll(db: Db, stales: seq<StaleDebit>, now: int): (nat, Db) {
    if stales == [] then (0, db)
    else
      var (n, swept) := CloseAll(db, stales[..|stales| - 1], now);
      var (closed, after) := CloseStale(swept, stales[|stales| - 1], now);
      (if closed then n + 1 else n, after)
  }

  /** An operator's comp, or the grant half of a sale. */
  function GrantTx(db: Db, u: User, credits: int, key: Key, reason: Reason, now: int): (Option<bool>, Db) {
    if credits < 1 then (None, db)
    else
      var o := Opened(db, u);
      if key in KeysOf(o.ledger) then (Some(false), o)
      else
        var row := Entry(Some(u), GRANT, reason, credits, None, 0, key, now);
        (Some(true), Credited(Posted(o, row), u, credits, credits))
  }

  datatype Product = SINGLE | STARTER

  datatype Purchase = Purchase(product: Product, amount: int, reference: string, isPaid: bool)

  const TOPUP_CREDITS := 1

  /** A paid single song: one receipt and one credit under one key. False is a refusal. */
  function SingleSaleTx(db: Db, u: User, purchase: Purchase, tail: string, now: int): (bool, Db) {
    if !purchase.isPaid || purchase.product != SINGLE then (false, db)
    else
      var key := SingleSale(tail);
      var receipt := Receipt(Some(u), TOPUP_CREDITS, purchase.amount, purchase.reference, now);
      var recorded := if key in db.topups then db else db.(topups := db.topups[key := receipt]);
      (true, GrantTx(recorded, u, TOPUP_CREDITS, key, TOPUP_PURCHASE, now).1)
  }

  predicate HasPlanKey(plans: seq<Plan>, key: Key) {
    exists i :: 0 <= i < |plans| && plans[i].key == key
  }

  /** A paid plan: one row and no credits, or nothing at all while another plan runs. */
  function PlanSaleTx(db: Db, u: User, purchase: Purchase, songs: int, days: int, tail: string, now: int): (bool, Db) {
    if !purchase.isPaid || purchase.product != STARTER then (false, db)
    else if CurrentPlan(db, u, now).Some? then (true, db)
    else if songs < 1 then (false, db)
    else if HasPlanKey(db.plans, PlanSale(tail)) then (true, db)
    else
      var row := Plan(Some(u), songs, 0, purchase.amount, purchase.reference, PlanSale(tail), now + days * DAY, now);
      (true, db.(plans := db.plans + [row]))
  }

  function Anonymised(l: seq<Entry>, u: User): (r: seq<Entry>)
    ensures |r| == |l|
    ensures forall i :: 0 <= i < |l| ==> r[i] == (if l[i].user == Some(u) then l[i].(user := None) else l[i])
  {
    seq(|l|, i requires 0 <= i < |l| => if l[i].user == Some(u) then l[i].(user := None) else l[i])
  }

  /** Erasure: every row loses its owner, no key or amount changes, the account goes. */
  function ForgetTx(db: Db, u: User): Db {
    var plans := seq(|db.plans|, i requires 0 <= i < |db.plans| =>
      if db.plans[i].user == Some(u) then db.plans[i].(user := None) else db.plans[i]);
    var topups := map k | k in db.topups ::
      if db.topups[k].user == Some(u) then db.topups[k].(user := None) else db.topups[k];
    db.(ledger := Anonymised(db.ledger, u), plans := plans, topups := topups, accounts := db.accounts - {u})
  }

  function SetBlockedTx(db: Db, u: User, isBlocked: bool): Db {
    db.(blocked := if isBlocked then db.blocked + {u} else db.blocked - {u})
  }

  /** The pipeline moves an order row; the meter only ever reads it. */
  function OrderMovedTx(db: Db, o: Uuid, row: OrderRow): Db {
    db.(orders := db.orders[o := row])
  }

  /** Accounts whose stored balance disagrees with the sum of their rows. */
  ghost predicate BooksBalance(db: Db) {
    forall u: User :: Sum(db.ledger, Some(u)) == BalanceOf(db, u)
  }
}
