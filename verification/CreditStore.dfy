/**
 * The credit tables as the program works on them: rows inserted, balances and counters
 * updated in place, one statement after another, with a rollback on refusal. Every public
 * method is proved to be the transaction of the same name in Ledger.
 */
module CreditStore {
  import opened Option
  import opened Keys
  import opened Periods
  import opened Ledger
  import opened LedgerInvariant

  class Store {
    var accounts: map<User, Account>
    var ledger: seq<Entry>
    var plans: seq<Plan>
    var topups: map<Key, Receipt>
    var blocked: set<User>
    var orders: map<Uuid, OrderRow>

    function Rows(): Db
      reads this
    {
      Db(accounts, ledger, plans, topups, blocked, orders)
    }

    constructor ()
      ensures Rows() == EMPTY
    {
      accounts, ledger, plans, topups, blocked, orders := map[], [], [], map[], {}, map[];
    }

    // ---- statements -------------------------------------------------------------------

    /** INSERT ... ON CONFLICT (idempotency_key) DO NOTHING. */
    method WriteEntry(e: Entry) returns (wrote: bool)
      modifies this`ledger
      ensures wrote == (e.key !in KeysOf(old(ledger)))
      ensures ledger == if wrote then old(ledger) + [e] else old(ledger)
    {
      var i := 0;
      while i < |ledger|
        invariant 0 <= i <= |ledger| && ledger == old(ledger)
        invariant forall j :: 0 <= j < i ==> ledger[j].key != e.key
      {
        if ledger[i].key == e.key {
          return false;
        }
        i := i + 1;
      }
      ledger := ledger + [e];
      return true;
    }

    /** INSERT ... ON CONFLICT (telegram_user_id) DO NOTHING. */
    method OpenAccount(u: User)
      modifies this`accounts
      ensures Rows() == Opened(old(Rows()), u)
    {
      if u !in accounts {
        accounts := accounts[u := Account(0, 0, None)];
      }
    }

    /** UPDATE ... SET balance = balance - cost WHERE balance >= cost. */
    method DebitBalance(u: User, cost: int) returns (taken: bool)
      modifies this`accounts
      ensures taken == (u in old(accounts) && old(accounts)[u].balance >= cost)
      ensures Rows() == if taken then Credited(old(Rows()), u, -cost, 0) else old(Rows())
    {
      taken := u in accounts && accounts[u].balance >= cost;
      if taken {
        accounts := accounts[u := accounts[u].(balance := accounts[u].balance - cost)];
      }
    }

    /** UPDATE ... SET balance = balance + credits; false when there is no such row. */
    method AddCredits(u: User, credits: int, lifetime: int, period: Option<int>) returns (found: bool)
      modifies this`accounts
      ensures found == (u in old(accounts))
      ensures Rows() == if !found then old(Rows())
                        else if period.Some? then Stamped(Credited(old(Rows()), u, credits, lifetime), u, period.value)
                        else Credited(old(Rows()), u, credits, lifetime)
    {
      found := u in accounts;
      if found {
        var a := accounts[u];
        accounts := accounts[u := Account(a.balance + credits, a.lifetime + lifetime,
                                          if period.Some? then period else a.period)];
      }
    }

    /** UPDATE ... SET songs_used = songs_used + 1 WHERE id = plan AND songs_used = seen. */
    method ClaimPlanSong(sight: PlanSight) returns (claimed: bool)
      modifies this`plans
      ensures claimed == WinsSong(old(Rows()), Some(sight))
      ensures plans == if claimed then old(plans)[sight.plan := old(plans)[sight.plan].(used := sight.used + 1)]
                       else old(plans)
    {
      claimed := sight.plan < |plans| && plans[sight.plan].used == sight.used && sight.used >= 0;
      if claimed {
        plans := plans[sight.plan := plans[sight.plan].(used := sight.used + 1)];
      }
    }

    // ---- minting ----------------------------------------------------------------------

    method MintDueAllowance(u: User, now: int, p: Policy) returns (minted: bool)
      requires p.Valid() && u in accounts
      modifies this`accounts, this`ledger
      ensures minted == AllowanceDue(old(Rows()), u, now, p)
      ensures Rows() == Arrived(old(Rows()), u, now, p)
    {
      if p.allowance < 1 {
        return false;
      }
      var mintedIndex := accounts[u].period;
      var index := PeriodIndex(now, p.periodDays);
      if mintedIndex.Some? && mintedIndex.value >= index {
        return false;
      }
      var reason := if mintedIndex.None? then SIGNUP_ALLOWANCE else PERIOD_ALLOWANCE;
      var wrote := WriteEntry(Entry(Some(u), GRANT, reason, p.allowance, None, 0, Period(u, index), now));
      if !wrote {
        return false;
      }
      var _ := AddCredits(u, p.allowance, p.allowance, Some(index));
      return true;
    }

    /** `sight` is the live plan as this transaction read it, which another may have overtaken. */
    method MintPlanSong(u: User, sight: Option<PlanSight>, now: int) returns (minted: bool)
      requires u in accounts
      modifies this`accounts, this`ledger, this`plans
      ensures Rows() == SongTaken(old(Rows()), u, sight, now)
      ensures minted ==> WinsSong(old(Rows()), sight)
    {
      if sight.None? {
        return false;
      }
      var claimed := ClaimPlanSong(sight.value);
      if !claimed {
        return false;
      }
      var row := Entry(Some(u), GRANT, PLAN_SONG, 1, None, 0, PlanSong(sight.value.plan, sight.value.used), now);
      var wrote := WriteEntry(row);
      if !wrote {
        return false;
      }
      var _ := AddCredits(u, 1, 1, None);
      return true;
    }

    // ---- charging ---------------------------------------------------------------------

    method Restore(db: Db)
      modifies this
      ensures Rows() == db
    {
      accounts, ledger, plans := db.accounts, db.ledger, db.plans;
      topups, blocked, orders := db.topups, db.blocked, db.orders;
    }

    method Charge(u: User, o: Uuid, cost: int, now: int, p: Policy, sight: Option<PlanSight>) returns (r: ChargeResult)
      requires p.Valid()
      modifies this
      ensures (r, Rows()) == ChargeTx(old(Rows()), u, o, cost, now, p, sight)
    {
      if cost < 1 {
        return BadCost;
      }
      var begin := Rows();
      OpenAccount(u);
      var _ := MintDueAllowance(u, now, p);
      ArrivedTwice(begin, u, now, p);
      var state := ReadBalance(Rows(), u, now, p, Some(o));
      if state.isBlocked {
        Restore(begin);
        return AccountBlocked;
      }
      if Net(ledger, o) < 0 {
        return AlreadyPaid(ReadBalance(Rows(), u, now, p, None));
      }
      if state.inFlight >= p.maxInFlight {
        Restore(begin);
        return TooManyInFlight(state.inFlight);
      }
      var _ := MintPlanSong(u, sight, now);
      ghost var minted := Rows();
      var gen := Generation(ledger, o);
      var wrote := WriteEntry(Entry(Some(u), DEBIT, ORDER_RENDER, -cost, Some(o), gen, Debit(o, gen), now));
      if !wrote {
        return AlreadyPaid(ReadBalance(Rows(), u, now, p, None));
      }
      var taken := DebitBalance(u, cost);
      if !taken {
        if p.enforced {
          Restore(begin);
          var next := PeriodStart(PeriodIndex(now, p.periodDays) + 1, p.periodDays);
          return InsufficientCredits(state.credits, next);
        }
        var covered := CoverTheShortfall(u, o, gen, cost, now);
        if !covered {
          Restore(begin);
          return StorageFault;
        }
        assert Rows() == PaidInTheDark(minted, u, o, cost, now);
      }
      return Charged(ReadBalance(Rows(), u, now, p, None));
    }

    method CoverTheShortfall(u: User, o: Uuid, gen: nat, cost: int, now: int) returns (covered: bool)
      requires u in accounts
      modifies this`accounts, this`ledger
      ensures covered == (old(accounts)[u].balance >= 0)
      ensures covered ==> accounts == old(accounts)
      ensures var cover := Entry(Some(u), GRANT, UNENFORCED_RENDER, cost, None, 0, Unenforced(o, gen), now);
        ledger == if cover.key in KeysOf(old(ledger)) then old(ledger) else old(ledger) + [cover]
    {
      var _ := WriteEntry(Entry(Some(u), GRANT, UNENFORCED_RENDER, cost, None, 0, Unenforced(o, gen), now));
      var _ := AddCredits(u, cost, 0, None);
      covered := DebitBalance(u, cost);
    }

    // ---- settling ---------------------------------------------------------------------

    method GiveBack(u: User, o: Uuid, reason: Reason, now: int) returns (wrote: bool)
      modifies this`accounts, this`ledger
      ensures (wrote, Rows()) == RefundTx(old(Rows()), u, o, reason, now)
    {
      var net := Net(ledger, o);
      if net >= 0 || u !in accounts {
        return false;
      }
      var gen := Generation(ledger, o);
      wrote := WriteEntry(Entry(Some(u), REFUND, reason, -net, Some(o), gen, Refund(o, gen), now));
      if wrote {
        var _ := AddCredits(u, -net, 0, None);
      }
    }

    method MarkSpent(u: User, o: Uuid, reason: Reason, now: int) returns (wrote: bool)
      modifies this`ledger
      ensures (wrote, Rows()) == ConsumeTx(old(Rows()), u, o, reason, now)
    {
      if Net(ledger, o) >= 0 {
        return false;
      }
      var gen := Generation(ledger, o);
      wrote := WriteEntry(Entry(Some(u), CONSUME, reason, 0, Some(o), gen, Consume(o, gen), now));
    }

    method Settle(u: User, o: Uuid, outcome: Outcome, now: int) returns (wrote: bool)
      modifies this`accounts, this`ledger
      ensures (wrote, Rows()) == SettleTx(old(Rows()), u, o, outcome, now)
    {
      match outcome
      case RENDER_FAILED => wrote := GiveBack(u, o, ORDER_FAILED, now);
      case DELIVERED_OK => wrote := MarkSpent(u, o, ORDER_DELIVERED, now);
      case NOT_DELIVERED => wrote := MarkSpent(u, o, ORDER_NOT_DELIVERED, now);
    }

    /** The sweep's query: oldest first, at most `limit` rows. */
    method StaleRows(cutoff: int, limit: nat) returns (picks: seq<nat>)
      requires InClockOrder(ledger)
      ensures IsSelection(Rows(), cutoff, limit, picks)
    {
      picks := [];
      var i := 0;
      while i < |ledger| && |picks| < limit
        invariant 0 <= i <= |ledger| && |picks| <= limit
        invariant forall k :: 0 <= k < |picks| ==> picks[k] < i && IsStale(Rows(), picks[k], cutoff)
        invariant forall j, k :: 0 <= j < k < |picks| ==> picks[j] < picks[k]
        invariant forall j: nat :: j < i && IsStale(Rows(), j, cutoff) ==> j in picks
      {
        if IsStale(Rows(), i, cutoff) {
          picks := picks + [i];
        }
        i := i + 1;
      }
    }

    /** A delivered order's debit is spent; any other is given back. */
    method CloseStaleDebit(stale: StaleDebit, now: int) returns (closed: bool)
      modifies this`accounts, this`ledger
      ensures (closed, Rows()) == CloseStale(old(Rows()), stale, now)
    {
      if stale.state == Some(DELIVERED) {
        closed := MarkSpent(stale.user, stale.order, STALE_SETTLEMENT, now);
      } else {
        closed := GiveBack(stale.user, stale.order, STALE_SETTLEMENT, now);
      }
    }

    method CloseEach(stales: seq<StaleDebit>, now: int) returns (closed: nat)
      modifies this`accounts, this`ledger
      ensures (closed, Rows()) == CloseAll(old(Rows()), stales, now)
    {
      hide KeysOf, CloseStale;
      closed := 0;
      var k := 0;
      while k < |stales|
        invariant 0 <= k <= |stales|
        invariant (closed, Rows()) == CloseAll(old(Rows()), stales[..k], now)
      {
        assert stales[..k + 1][..k] == stales[..k];
        var won := CloseStaleDebit(stales[k], now);
        if won {
          closed := closed + 1;
        }
        k := k + 1;
      }
      assert stales[..k] == stales;
    }

    /** The hourly sweep; `picks` records which debits it chose. */
    method SettleStaleDebits(cutoff: int, limit: nat, now: int) returns (closed: nat, ghost picks: seq<nat>)
      requires InClockOrder(ledger)
      modifies this`accounts, this`ledger
      ensures IsSelection(old(Rows()), cutoff, limit, picks)
      ensures (closed, Rows()) == CloseAll(old(Rows()), StalesAt(old(Rows()), picks), now)
    {
      hide KeysOf, IsOpenDebit, CloseAll, InClockOrder;
      var rows := StaleRows(cutoff, limit);
      picks := rows;
      closed := CloseEach(StalesAt(Rows(), rows), now);
    }

    // ---- grants and sales ---------------------------------------------------------------

    method Grant(u: User, credits: int, key: Key, reason: Reason, now: int) returns (wrote: Option<bool>)
      modifies this`accounts, this`ledger
      ensures (wrote, Rows()) == GrantTx(old(Rows()), u, credits, key, reason, now)
    {
      if credits < 1 {
        return None;
      }
      OpenAccount(u);
      var inserted := WriteEntry(Entry(Some(u), GRANT, reason, credits, None, 0, key, now));
      if inserted {
        var _ := AddCredits(u, credits, credits, None);
      }
      return Some(inserted);
    }

    method FulfilSingle(u: User, purchase: Purchase, tail: string, now: int) returns (accepted: bool)
      modifies this
      ensures (accepted, Rows()) == SingleSaleTx(old(Rows()), u, purchase, tail, now)
    {
      if !purchase.isPaid || purchase.product != SINGLE {
        return false;
      }
      var key := SingleSale(tail);
      if key !in topups {
        topups := topups[key := Receipt(Some(u), TOPUP_CREDITS, purchase.amount, purchase.reference, now)];
      }
      var _ := Grant(u, TOPUP_CREDITS, key, TOPUP_PURCHASE, now);
      return true;
    }

    method StartPlan(u: User, purchase: Purchase, songs: int, days: int, tail: string, now: int) returns (accepted: bool)
      modifies this`plans
      ensures (accepted, Rows()) == PlanSaleTx(old(Rows()), u, purchase, songs, days, tail, now)
    {
      if !purchase.isPaid || purchase.product != STARTER {
        return false;
      }
      if PickPlan(plans, u, now, false).Some? {
        return true;
      }
      if songs < 1 {
        return false;
      }
      if !HasPlanKey(plans, PlanSale(tail)) {
        plans := plans + [Plan(Some(u), songs, 0, purchase.amount, purchase.reference, PlanSale(tail),
                               now + days * DAY, now)];
      }
      return true;
    }

    /** Receipts first, balance last; each table is rewritten row by row. */
    method Forget(u: User)
      modifies this
      ensures Rows() == ForgetTx(old(Rows()), u)
    {
      var i := 0;
      while i < |plans|
        invariant 0 <= i <= |plans| == |old(plans)|
        invariant forall j :: 0 <= j < i ==>
          plans[j] == if old(plans)[j].user == Some(u) then old(plans)[j].(user := None) else old(plans)[j]
        invariant forall j :: i <= j < |plans| ==> plans[j] == old(plans)[j]
        invariant unchanged(`accounts, `ledger, `topups, `blocked, `orders)
      {
        if plans[i].user == Some(u) {
          plans := plans[i := plans[i].(user := None)];
        }
        i := i + 1;
      }
      topups := map k | k in topups :: if topups[k].user == Some(u) then topups[k].(user := None) else topups[k];
      i := 0;
      while i < |ledger|
        invariant 0 <= i <= |ledger| == |old(ledger)|
        invariant forall j :: 0 <= j < i ==>
          ledger[j] == if old(ledger)[j].user == Some(u) then old(ledger)[j].(user := None) else old(ledger)[j]
        invariant forall j :: i <= j < |ledger| ==> ledger[j] == old(ledger)[j]
        invariant unchanged(`accounts, `blocked, `orders)
        invariant plans == ForgetTx(old(Rows()), u).plans && topups == ForgetTx(old(Rows()), u).topups
      {
        if ledger[i].user == Some(u) {
          ledger := ledger[i := ledger[i].(user := None)];
        }
        i := i + 1;
      }
      accounts := accounts - {u};
    }

    /**
     * Everybody, with an account or only with rows, whose stored balance disagrees with
     * their rows. Erased rows are nobody's; no drift means the books balance.
     */
    method VerifyBalances() returns (drifts: set<User>)
      ensures forall u :: u in drifts <==> Sum(ledger, Some(u)) != BalanceOf(Rows(), u)
      ensures drifts == {} <==> BooksBalance(Rows())
    {
      var stored := set u | u in accounts && accounts[u].balance != Sum(ledger, Some(u));
      var owners := set i | 0 <= i < |ledger| && ledger[i].user.Some? :: ledger[i].user.value;
      var orphans := set u | u in owners && u !in accounts && Sum(ledger, Some(u)) != 0;
      drifts := stored + orphans;
      forall u: User | u !in accounts && u !in owners ensures Sum(ledger, Some(u)) == 0 {
        StrangersSumToNothing(ledger, u);
      }
      assert forall u :: u in drifts <==> Sum(ledger, Some(u)) != BalanceOf(Rows(), u);
      NoDriftIsBalance(Rows(), drifts);
    }
  }

  lemma NoDriftIsBalance(db: Db, drifts: set<User>)
    requires forall u :: u in drifts <==> Sum(db.ledger, Some(u)) != BalanceOf(db, u)
    ensures drifts == {} <==> BooksBalance(db)
  {
    if drifts == {} {
      forall u: User ensures Sum(db.ledger, Some(u)) == BalanceOf(db, u) { assert u !in drifts; }
    }
    if BooksBalance(db) {
      forall u: User ensures u !in drifts { assert Sum(db.ledger, Some(u)) == BalanceOf(db, u); }
      assert drifts == {};
    }
  }

  lemma {:induction false} StrangersSumToNothing(l: seq<Entry>, u: User)
    requires forall i :: 0 <= i < |l| ==> l[i].user != Some(u)
    ensures Sum(l, Some(u)) == 0
  {
    if l != [] { StrangersSumToNothing(l[..|l| - 1], u); }
  }

  // Opening an open account adds nothing to what arriving already does.
  lemma ArrivedTwice(db: Db, u: User, now: int, p: Policy)
    requires p.Valid()
    ensures Arrived(Opened(db, u), u, now, p) == Arrived(db, u, now, p)
  {
  }
}
