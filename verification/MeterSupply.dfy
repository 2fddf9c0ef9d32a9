/** Where credits come from, how many there can be, and that nothing once written is lost. */
module MeterSupply {
  import opened Counting
  import opened Option
  import opened Keys
  import opened Periods
  import opened Ledger
  import opened LedgerHistory
  import opened LedgerInvariant

  // ---- adding up selected rows ---------------------------------------------------------------

  function Tally(l: seq<Entry>, f: Entry -> bool): int {
    if l == [] then 0 else
      Tally(l[..|l| - 1], f) + (if f(l[|l| - 1]) then l[|l| - 1].delta else 0)
  }

  function Picked(l: seq<Entry>, f: Entry -> bool): set<Key> {
    set i | 0 <= i < |l| && f(l[i]) :: l[i].key
  }

  lemma PickedGrows(l: seq<Entry>, n: nat, f: Entry -> bool)
    requires Unique(l) && n < |l|
    ensures Picked(l[..n + 1], f) == if f(l[n]) then Picked(l[..n], f) + {l[n].key} else Picked(l[..n], f)
    ensures l[n].key !in Picked(l[..n], f)
  {
    var m := l[..n + 1];
    assert forall i :: 0 <= i < n ==> m[i] == l[i] == l[..n][i];
    assert m[n] == l[n];
  }

  lemma NothingPicked(f: Entry -> bool)
    ensures Picked([], f) == {}
  {
  }

  // Rows worth `d` each, under unique keys, add up to `d` per key.
  lemma {:induction false} TallyCountsKeys(l: seq<Entry>, f: Entry -> bool, d: int)
    requires Unique(l) && forall i :: 0 <= i < |l| && f(l[i]) ==> l[i].delta == d
    ensures Tally(l, f) == d * |Picked(l, f)|
  {
    hide Picked;
    if l == [] {
      NothingPicked(f);
    } else {
      var n := |l| - 1;
      TallyCountsKeys(l[..n], f, d);
      PickedGrows(l, n, f);
      assert l[..n + 1] == l;
      OneMoreTimes(d, |Picked(l[..n], f)|);
    }
  }

  // ---- the rolling allowance --------------------------------------------------------------------

  function MintedWithin(u: User, from: int, to: int): Entry -> bool {
    (e: Entry) => e.key.Period? && e.key.user == u && from <= e.at <= to
  }

  /** Allowance credits minted for one person between two instants, erased rows included. */
  function AllowanceMinted(l: seq<Entry>, u: User, from: int, to: int): int {
    Tally(l, MintedWithin(u, from, to))
  }

  function WindowKeys(u: User, lo: int, hi: int): set<Key> {
    set i | lo <= i <= hi :: Period(u, i)
  }

  lemma {:induction false} WindowKeysCount(u: User, lo: int, hi: int)
    requires lo <= hi + 1
    ensures |WindowKeys(u, lo, hi)| == hi - lo + 1
    decreases hi - lo + 1
  {
    if lo == hi + 1 {
      assert WindowKeys(u, lo, hi) == {};
    } else {
      WindowKeysCount(u, lo, hi - 1);
      assert WindowKeys(u, lo, hi) == WindowKeys(u, lo, hi - 1) + {Period(u, hi)};
    }
  }

  // Every row minted within a stretch is keyed by a window the stretch touches.
  lemma MintedKeysFit(l: seq<Entry>, u: User, from: int, to: int, p: Policy)
    requires p.Valid() && Shapes(l, p)
    ensures Picked(l, MintedWithin(u, from, to))
         <= WindowKeys(u, PeriodIndex(from, p.periodDays), PeriodIndex(to, p.periodDays))
    ensures forall i :: 0 <= i < |l| && MintedWithin(u, from, to)(l[i]) ==> l[i].delta == p.allowance
  {
    hide PeriodIndex;
    forall i | 0 <= i < |l| && MintedWithin(u, from, to)(l[i])
      ensures l[i].key in WindowKeys(u, PeriodIndex(from, p.periodDays), PeriodIndex(to, p.periodDays))
      ensures l[i].delta == p.allowance
    {
      assert Shape(l[i], p);
      IndexIsMonotone(from, l[i].at, p.periodDays);
      IndexIsMonotone(l[i].at, to, p.periodDays);
    }
  }

  /**
   * Over any stretch that touches k windows nobody is minted more than k allowances, however
   * often they are forgotten and come back in between.
   */
  lemma AllowanceBound(db: Db, u: User, from: int, to: int, clock: int, p: Policy)
    requires Inv(db, clock, p) && from <= to
    ensures AllowanceMinted(db.ledger, u, from, to)
         <= p.allowance * (PeriodIndex(to, p.periodDays) - PeriodIndex(from, p.periodDays) + 1)
  {
    hide PeriodIndex, Picked, WindowKeys, MintedWithin, Tally, Legal, Dated, CoversPaired, Capped, BooksInv, PlansInv, SalesInv;
    var l, f := db.ledger, MintedWithin(u, from, to);
    var lo, hi := PeriodIndex(from, p.periodDays), PeriodIndex(to, p.periodDays);
    IndexIsMonotone(from, to, p.periodDays);
    MintedKeysFit(l, u, from, to, p);
    SubsetSize(Picked(l, f), WindowKeys(u, lo, hi));
    WindowKeysCount(u, lo, hi);
    TallyCountsKeys(l, f, p.allowance);
    TimesMonotone(|Picked(l, f)|, hi - lo + 1, p.allowance);
  }

  // ---- plan songs ---------------------------------------------------------------------------------

  function PlanCredits(l: seq<Entry>, plan: nat): int {
    Tally(l, (e: Entry) => e.key.PlanSong? && e.key.plan == plan)
  }

  function SongKeysBelow(plan: nat, n: nat): set<Key> {
    set j: nat | j < n :: PlanSong(plan, j)
  }

  lemma {:induction false} SongKeysCount(plan: nat, n: nat)
    ensures |SongKeysBelow(plan, n)| == n
  {
    if n == 0 {
      assert SongKeysBelow(plan, 0) == {};
    } else {
      SongKeysCount(plan, n - 1);
      assert SongKeysBelow(plan, n) == SongKeysBelow(plan, n - 1) + {PlanSong(plan, n - 1)};
    }
  }

  /**
   * A plan has supplied exactly as many credits as its counter says, never more than it
   * includes, and none at or after its end; whatever charges raced for its songs.
   */
  lemma PlanSupply(db: Db, plan: nat, clock: int, p: Policy)
    requires Inv(db, clock, p) && plan < |db.plans|
    ensures PlanCredits(db.ledger, plan) == db.plans[plan].used <= db.plans[plan].included
    ensures forall r :: 0 <= r < |db.ledger| && db.ledger[r].key.PlanSong? && db.ledger[r].key.plan == plan ==>
              db.ledger[r].at < db.plans[plan].endsAt
  {
    var l := db.ledger;
    var f := (e: Entry) => e.key.PlanSong? && e.key.plan == plan;
    var n := db.plans[plan].used;
    forall k | k in SongKeysBelow(plan, n) ensures k in Picked(l, f) {
      assert PlanSong(plan, k.song) in KeysOf(l);
      var i :| 0 <= i < |l| && l[i].key == k;
      assert f(l[i]);
    }
    forall k | k in Picked(l, f) ensures k in SongKeysBelow(plan, n) {
      assert PlanSong(plan, k.song) in KeysOf(l);
    }
    assert Picked(l, f) == SongKeysBelow(plan, n);
    SongKeysCount(plan, n);
    SongRowsAlike(l, f, p);
    TallyCountsKeys(l, f, 1);
  }

  lemma SongRowsAlike(l: seq<Entry>, f: Entry -> bool, p: Policy)
    requires p.Valid() && History(l, p) && forall e :: f(e) ==> e.key.PlanSong?
    ensures forall i :: 0 <= i < |l| && f(l[i]) ==> l[i].delta == 1
  {
    forall i | 0 <= i < |l| && f(l[i]) ensures l[i].delta == 1 {
      assert Shape(l[i], p);
    }
  }

  // ---- conservation --------------------------------------------------------------------------------

  function Granted(l: seq<Entry>, u: User): int {
    Tally(l, (e: Entry) => e.user == Some(u) && e.kind == GRANT)
  }

  /** Debits less refunds. */
  function Spent(l: seq<Entry>, u: User): int {
    -Tally(l, (e: Entry) => e.user == Some(u) && e.kind != GRANT)
  }

  lemma {:induction false} SumSplits(l: seq<Entry>, u: User)
    ensures Sum(l, Some(u)) == Granted(l, u) - Spent(l, u)
  {
    if l != [] {
      SumSplits(l[..|l| - 1], u);
    }
  }

  /** Stored balance and ledger agree, and nobody ever spends more than they were granted. */
  lemma SpendingWithinGrants(db: Db, u: User, clock: int, p: Policy)
    requires Inv(db, clock, p)
    ensures BalanceOf(db, u) == Granted(db.ledger, u) - Spent(db.ledger, u) >= 0
  {
    SumSplits(db.ledger, u);
    assert Sum(db.ledger, Some(u)) == BalanceOf(db, u);
  }

  // ---- nothing written is lost -------------------------------------------------------------------------

  /** The later state still tells everything the earlier one did, owners aside. */
  ghost predicate Extends(a: Db, b: Db) {
    && RowsExtend(a.ledger, b.ledger) && PlansExtend(a.plans, b.plans) && ReceiptsExtend(a.topups, b.topups)
  }

  ghost predicate RowsExtend(a: seq<Entry>, b: seq<Entry>) {
    |a| <= |b| && forall i :: 0 <= i < |a| ==> b[i] == a[i] || b[i] == a[i].(user := None)
  }

  ghost predicate PlansExtend(a: seq<Plan>, b: seq<Plan>) {
    |a| <= |b| && forall i :: 0 <= i < |a| ==>
      && a[i].used <= b[i].used
      && (b[i].(used := 0) == a[i].(used := 0) || b[i].(used := 0) == a[i].(used := 0, user := None))
  }

  ghost predicate ReceiptsExtend(a: map<Key, Receipt>, b: map<Key, Receipt>) {
    forall k :: k in a ==> k in b && (b[k] == a[k] || b[k] == a[k].(user := None))
  }

  lemma ExtendsTransitive(a: Db, b: Db, c: Db)
    requires Extends(a, b) && Extends(b, c)
    ensures Extends(a, c)
  {
  }

  lemma ChargeExtends(db: Db, u: User, o: Uuid, cost: int, now: int, p: Policy, sight: Option<PlanSight>)
    requires p.Valid()
    ensures Extends(db, ChargeTx(db, u, o, cost, now, p, sight).1)
  {
    hide KeysOf, Net, Generation, OpenDebits, PickPlan, ReadBalance, AllowanceDue, Extends;
    var a := Arrived(db, u, now, p);
    var s := SongTaken(a, u, sight, now);
    ArrivalExtends(db, u, now, p);
    SongExtends(a, u, sight, now);
    PaymentExtends(s, u, o, cost, now);
    ExtendsTransitive(db, a, s);
    ExtendsTransitive(db, s, PaidFromBalance(s, u, o, cost, now));
    ExtendsTransitive(db, s, PaidInTheDark(s, u, o, cost, now));
    ExtendsReflexive(db);
  }

  lemma ExtendsReflexive(db: Db)
    ensures Extends(db, db)
  {
  }

  lemma ArrivalExtends(db: Db, u: User, now: int, p: Policy)
    requires p.Valid()
    ensures Extends(db, Arrived(db, u, now, p))
  {
  }

  lemma SongExtends(db: Db, u: User, sight: Option<PlanSight>, now: int)
    requires u in db.accounts
    ensures Extends(db, SongTaken(db, u, sight, now))
  {
  }

  lemma PaymentExtends(db: Db, u: User, o: Uuid, cost: int, now: int)
    requires u in db.accounts
    ensures Extends(db, PaidFromBalance(db, u, o, cost, now)) && Extends(db, PaidInTheDark(db, u, o, cost, now))
  {
  }

  lemma SettlementExtends(db: Db, u: User, o: Uuid, reason: Reason, now: int)
    ensures Extends(db, RefundTx(db, u, o, reason, now).1) && Extends(db, ConsumeTx(db, u, o, reason, now).1)
  {
  }

  lemma {:induction false} CloseAllExtends(db: Db, stales: seq<StaleDebit>, now: int)
    ensures Extends(db, CloseAll(db, stales, now).1)
  {
    hide Extends, RefundTx, ConsumeTx;
    ExtendsReflexive(db);
    if stales != [] {
      CloseAllExtends(db, stales[..|stales| - 1], now);
      var swept := CloseAll(db, stales[..|stales| - 1], now).1;
      var last := stales[|stales| - 1];
      SettlementExtends(swept, last.user, last.order, STALE_SETTLEMENT, now);
      ExtendsTransitive(db, swept, CloseStale(swept, last, now).1);
    }
  }

  lemma SalesExtend(db: Db, u: User, purchase: Purchase, songs: int, days: int, tail: string, now: int)
    ensures Extends(db, SingleSaleTx(db, u, purchase, tail, now).1)
    ensures Extends(db, PlanSaleTx(db, u, purchase, songs, days, tail, now).1)
  {
  }

  lemma StepExtends(db: Db, step: Step, now: int, p: Policy)
    requires p.Valid() && Enabled(db, step, now)
    ensures Extends(db, Apply(db, step, now, p))
  {
    hide ChargeTx, RefundTx, ConsumeTx, CloseAll, SingleSaleTx, PlanSaleTx, KeysOf;
    match step
    case ChargeStep(u, o, cost, sight) => ChargeExtends(db, u, o, cost, now, p, sight);
    case SettleStep(u, o, outcome) =>
      SettlementExtends(db, u, o, ORDER_FAILED, now);
      SettlementExtends(db, u, o, ORDER_DELIVERED, now);
      SettlementExtends(db, u, o, ORDER_NOT_DELIVERED, now);
    case SweepStep(_, _, picks) => CloseAllExtends(db, StalesAt(db, picks), now);
    case AdminGrantStep(_, _, _) =>
    case SingleSaleStep(u, purchase, tail) => SalesExtend(db, u, purchase, 1, 1, tail, now);
    case PlanSaleStep(u, purchase, songs, days, tail) => SalesExtend(db, u, purchase, songs, days, tail, now);
    case ForgetStep(_) =>
    case BlockStep(_, _) =>
    case OrderMovedStep(_, _) =>
  }

  /** The ledger is append-only and receipts are permanent, over every run. */
  lemma {:induction false} RunExtends(states: seq<Db>, steps: seq<Timed>, start: int, p: Policy, i: nat, j: nat)
    requires IsRun(states, steps, start, p) && i <= j <= |steps|
    ensures Extends(states[i], states[j])
    decreases j
  {
    hide Extends;
    if i == j {
      ExtendsReflexive(states[i]);
    } else {
      RunExtends(states, steps, start, p, i, j - 1);
      StepExtends(states[j - 1], steps[j - 1].step, steps[j - 1].now, p);
      ExtendsTransitive(states[i], states[j - 1], states[j]);
    }
  }

  /** A plan read that was good when it was made is still a lawful one at the claim. */
  lemma SightOutlivesOthers(states: seq<Db>, steps: seq<Timed>, start: int, p: Policy, i: nat, j: nat,
                            sight: Option<PlanSight>, now: int)
    requires IsRun(states, steps, start, p) && i <= j <= |steps| && SightHolds(states[i], sight, now)
    ensures SightHolds(states[j], sight, now)
  {
    RunExtends(states, steps, start, p, i, j);
  }

  lemma ChargedTookSong(db: Db, u: User, o: Uuid, cost: int, now: int, p: Policy, sight: Option<PlanSight>)
    requires p.Valid() && ChargeTx(db, u, o, cost, now, p, sight).0.Charged? && WinsSong(db, sight)
    ensures var plans := ChargeTx(db, u, o, cost, now, p, sight).1.plans;
      |plans| == |db.plans| && plans[sight.value.plan].used == sight.value.used + 1
  {
    hide KeysOf, Net, Generation, OpenDebits, PickPlan, ReadBalance, AllowanceDue;
    assert Arrived(db, u, now, p).plans == db.plans;
  }

  /** Of all the charges that saw one counter value, at most one ever gets the song. */
  lemma SongIsClaimedOnce(states: seq<Db>, steps: seq<Timed>, start: int, p: Policy, i: nat, j: nat)
    requires IsRun(states, steps, start, p) && i < j <= |steps| && steps[i].step.ChargeStep?
    requires var s := steps[i].step;
      WinsSong(states[i], s.sight) && ChargeTx(states[i], s.u, s.o, s.cost, steps[i].now, p, s.sight).0.Charged?
    ensures !WinsSong(states[j], steps[i].step.sight)
  {
    hide ChargeTx;
    var s := steps[i].step;
    ChargedTookSong(states[i], s.u, s.o, s.cost, steps[i].now, p, s.sight);
    RunExtends(states, steps, start, p, i + 1, j);
  }

  // ---- sales ----------------------------------------------------------------------------------------

  /**
   * A replayed single sale writes neither the receipt nor the grant a second time, whoever
   * replays it and even after an erasure: at most it opens an empty account for the caller.
   */
  lemma SingleSaleOnce(db: Db, u: User, v: User, purchase: Purchase, again: Purchase, tail: string,
                       now: int, later: int, p: Policy)
    requires Inv(db, now, p) && SingleSaleTx(db, u, purchase, tail, now).0
    ensures var after := SingleSaleTx(db, u, purchase, tail, now).1;
      && SingleSale(tail) in after.topups && SingleSale(tail) in KeysOf(after.ledger)
      && (SingleSaleTx(after, v, again, tail, later).0 <==> again.isPaid && again.product == SINGLE)
      && SingleSaleTx(after, v, again, tail, later).1
         == (if again.isPaid && again.product == SINGLE then Opened(after, v) else after)
      && BalanceOf(SingleSaleTx(after, v, again, tail, later).1, v) == BalanceOf(after, v)
  {
    hide RowsInv, PlansInv, BooksInv, KeysOf;
    SingleSaleWritesBoth(db, u, purchase, tail, now);
    Append(db.ledger, Entry(Some(u), GRANT, TOPUP_PURCHASE, TOPUP_CREDITS, None, 0, SingleSale(tail), now));
  }

  /** What a sale that is not a replay adds: one receipt, one row, one credit. */
  lemma FirstSaleAddsOneOfEach(db: Db, u: User, purchase: Purchase, tail: string, now: int, p: Policy)
    requires Inv(db, now, p) && purchase.isPaid && purchase.product == SINGLE
    requires SingleSale(tail) !in db.topups
    ensures var after := SingleSaleTx(db, u, purchase, tail, now).1;
      && after.topups == db.topups[SingleSale(tail) := Receipt(Some(u), 1, purchase.amount, purchase.reference, now)]
      && |after.ledger| == |db.ledger| + 1 && BalanceOf(after, u) == BalanceOf(db, u) + 1
      && after.plans == db.plans
  {
    hide RowsInv, PlansInv, BooksInv, KeysOf;
    SingleSaleWritesBoth(db, u, purchase, tail, now);
  }

  /**
   * A paid plan sale opens a plan exactly when none is running, the key is new and there are
   * songs to sell; the one it opens is the one the buyer is then on. While a plan runs the
   * sale is accepted all the same, the money is taken, and nothing is written.
   */
  lemma PlanSaleWritesIff(db: Db, u: User, purchase: Purchase, songs: int, days: int, tail: string, now: int)
    requires purchase.isPaid && purchase.product == STARTER
    ensures var (accepted, after) := PlanSaleTx(db, u, purchase, songs, days, tail, now);
      && (accepted <==> CurrentPlan(db, u, now).Some? || songs >= 1)
      && (after != db <==> CurrentPlan(db, u, now).None? && songs >= 1 && !HasPlanKey(db.plans, PlanSale(tail)))
      && (after != db ==> after.ledger == db.ledger && after.accounts == db.accounts && after.topups == db.topups)
      && (after != db && days >= 1 ==>
            && |after.plans| == |db.plans| + 1 && after.plans[|db.plans|].endsAt == now + days * 86_400_000_000
            && CurrentPlan(after, u, now) == Some(|db.plans|) && LivePlan(after, u, now) == Some(|db.plans|))
  {
    hide PickPlan;
    var after := PlanSaleTx(db, u, purchase, songs, days, tail, now).1;
    if after != db {
      assert forall i :: 0 <= i < |db.plans| ==> after.plans[i] == db.plans[i] && !Matches(db.plans[i], u, now, false);
      if days >= 1 {
        assert after.plans[|db.plans|].endsAt > now;
        assert Matches(after.plans[|db.plans|], u, now, false) && Matches(after.plans[|db.plans|], u, now, true);
      }
    }
  }

  /**
   * The plan a sale opens. It is one row behind all the others: the buyer's, with every song it was sold
   * with and none used, at the price and under the reference of the purchase. It is the plan its buyer is
   * on from the sale until `days` days of 86 400 seconds later, and from that instant on nobody is on it.
   */
  lemma PlanRunsItsLength(db: Db, u: User, purchase: Purchase, songs: int, days: int, tail: string, now: int, at: int,
                          v: User)
    requires PlanSaleTx(db, u, purchase, songs, days, tail, now).1 != db && at >= now
    ensures var after, n := PlanSaleTx(db, u, purchase, songs, days, tail, now).1, |db.plans|;
      && |after.plans| == n + 1 && after.plans[..n] == db.plans && after == db.(plans := after.plans)
      && after.plans[n] == Plan(Some(u), songs, 0, purchase.amount, purchase.reference, PlanSale(tail),
                                now + days * 86_400_000_000, now)
      && (at < now + days * 86_400_000_000 ==> CurrentPlan(after, u, at) == Some(n) == LivePlan(after, u, at))
      && (at >= now + days * 86_400_000_000 ==>
            CurrentPlan(after, u, at).None? && CurrentPlan(after, v, at) != Some(n) && LivePlan(after, v, at) != Some(n))
  {
    hide PickPlan;
    var after := PlanSaleTx(db, u, purchase, songs, days, tail, now).1;
    assert forall i :: 0 <= i < |db.plans| ==> after.plans[i] == db.plans[i] && !Matches(db.plans[i], u, now, false);
    assert forall i :: 0 <= i < |db.plans| ==> !IsCurrent(after.plans[i], u, at);
    if at < now + days * DAY {
      assert Matches(after.plans[|db.plans|], u, at, false) && Matches(after.plans[|db.plans|], u, at, true);
    }
  }

  /** A replayed plan sale opens nothing more, before or after the first plan's end. */
  lemma PlanSaleOnce(db: Db, u: User, v: User, purchase: Purchase, again: Purchase, songs: int, days: int,
                     tail: string, now: int, later: int)
    requires PlanSaleTx(db, u, purchase, songs, days, tail, now).1 != db
    ensures var after := PlanSaleTx(db, u, purchase, songs, days, tail, now).1;
      HasPlanKey(after.plans, PlanSale(tail)) && PlanSaleTx(after, v, again, songs, days, tail, later).1 == after
  {
    var after := PlanSaleTx(db, u, purchase, songs, days, tail, now).1;
    assert after.plans[|db.plans|].key == PlanSale(tail);
  }
}
