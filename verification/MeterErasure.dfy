/** What an erasure takes off the meter's tables, what it leaves on them, and what its subject finds on coming back. */
module MeterErasure {
  import opened Option
  import opened Keys
  import opened Periods
  import opened Ledger
  import opened LedgerHistory

  /** No table names this person any more. */
  ghost predicate NamesNobody(db: Db, u: User) {
    && u !in db.accounts
    && (forall i :: 0 <= i < |db.ledger| ==> db.ledger[i].user != Some(u))
    && (forall i :: 0 <= i < |db.plans| ==> db.plans[i].user != Some(u))
    && (forall k :: k in db.topups ==> db.topups[k].user != Some(u))
  }

  /** Row by row the same, but that this person's rows have no owner. */
  ghost predicate SameButFor(before: Db, after: Db, u: User) {
    && |after.ledger| == |before.ledger|
    && (forall i :: 0 <= i < |before.ledger| ==>
          after.ledger[i] == if before.ledger[i].user == Some(u) then before.ledger[i].(user := None) else before.ledger[i])
    && |after.plans| == |before.plans|
    && (forall i :: 0 <= i < |before.plans| ==>
          after.plans[i] == if before.plans[i].user == Some(u) then before.plans[i].(user := None) else before.plans[i])
    && (forall k :: k in after.topups <==> k in before.topups)
    && (forall k :: k in before.topups ==>
          after.topups[k] == if before.topups[k].user == Some(u) then before.topups[k].(user := None) else before.topups[k])
    && (forall v :: v in after.accounts <==> v in before.accounts && v != u)
    && (forall v :: v in after.accounts ==> after.accounts[v] == before.accounts[v])
    && after.blocked == before.blocked && after.orders == before.orders
  }

  /**
   * An erasure is complete and takes nothing else: no table names the person, whose plan nobody is
   * on at any instant; every other field of every row stands, and so does everybody else's.
   */
  lemma ErasureIsExact(db: Db, u: User, at: int)
    ensures NamesNobody(ForgetTx(db, u), u) && SameButFor(db, ForgetTx(db, u), u)
    ensures CurrentPlan(ForgetTx(db, u), u, at).None? && LivePlan(ForgetTx(db, u), u, at).None?
  {
    hide PickPlan;
  }

  // Somebody else's plan is the plan they were on.
  lemma {:induction false} OthersKeepTheirPlan(db: Db, u: User, v: User, at: int, unspent: bool, n: nat)
    requires u != v && n <= |db.plans|
    ensures PickPlan(ForgetTx(db, u).plans[..n], v, at, unspent) == PickPlan(db.plans[..n], v, at, unspent)
  {
    if n > 0 {
      OthersKeepTheirPlan(db, u, v, at, unspent, n - 1);
      var a, b := ForgetTx(db, u).plans[..n], db.plans[..n];
      assert a[..n - 1] == ForgetTx(db, u).plans[..n - 1] && b[..n - 1] == db.plans[..n - 1];
    }
  }

  lemma OthersFly(db: Db, u: User, v: User, cutoff: int, o: Option<Uuid>)
    requires u != v
    ensures OpenDebits(ForgetTx(db, u).ledger, v, cutoff, o) == OpenDebits(db.ledger, v, cutoff, o)
  {
    forall i: nat | i < |db.ledger| ensures IsOpenDebit(Anonymised(db.ledger, u), i) == IsOpenDebit(db.ledger, i) {
      ErasureKeepsOpen(db.ledger, u, i);
    }
  }

  lemma OthersPlansStand(db: Db, u: User, v: User, now: int)
    requires u != v
    ensures LivePlan(ForgetTx(db, u), v, now) == LivePlan(db, v, now)
    ensures CurrentPlan(ForgetTx(db, u), v, now) == CurrentPlan(db, v, now)
  {
    OthersKeepTheirPlan(db, u, v, now, true, |db.plans|);
    OthersKeepTheirPlan(db, u, v, now, false, |db.plans|);
    assert ForgetTx(db, u).plans[..|db.plans|] == ForgetTx(db, u).plans && db.plans[..|db.plans|] == db.plans;
    hide PickPlan, ForgetTx;
  }

  lemma OthersCreditStands(db: Db, u: User, v: User, now: int, p: Policy)
    requires p.Valid() && u != v
    ensures BalanceOf(ForgetTx(db, u), v) == BalanceOf(db, v)
    ensures WindowUnminted(ForgetTx(db, u), v, now, p) == WindowUnminted(db, v, now, p)
  {
    hide KeysOf;
    ErasureKeepsKeys(db.ledger, u);
  }

  /** Nobody else can tell: whatever the meter shows of another person, it shows the same. */
  lemma OthersSeeNothing(db: Db, u: User, v: User, now: int, p: Policy, excluded: Option<Uuid>)
    requires p.Valid() && u != v
    ensures ReadBalance(ForgetTx(db, u), v, now, p, excluded) == ReadBalance(db, v, now, p, excluded)
  {
    hide PickPlan, LivePlan, CurrentPlan, KeysOf, OpenDebits, BalanceOf, WindowUnminted;
    OthersPlansStand(db, u, v, now);
    OthersCreditStands(db, u, v, now, p);
    OthersFly(db, u, v, p.Cutoff(now), excluded);
    PlansInRange(db, v, now);
  }

  lemma PlansInRange(db: Db, v: User, now: int)
    ensures LivePlan(db, v, now).Some? ==> LivePlan(db, v, now).value < |db.plans|
    ensures CurrentPlan(db, v, now).Some? ==> CurrentPlan(db, v, now).value < |db.plans|
  {
    hide PickPlan;
  }

  /**
   * Coming back is starting over with nothing but an allowance this window has not given yet: an
   * erasure is no way to a second one, to a plan song, or out of a block.
   */
  lemma ComingBackGainsNothing(db: Db, u: User, now: int, p: Policy, excluded: Option<Uuid>)
    requires p.Valid()
    ensures var view := ReadBalance(ForgetTx(db, u), u, now, p, excluded);
      && view.credits == (if Period(u, PeriodIndex(now, p.periodDays)) in KeysOf(db.ledger) then 0 else p.allowance)
      && view.planSongsLeft == 0 && view.planEndsAt.None? && view.inFlight == 0
      && (view.isBlocked <==> u in db.blocked)
  {
    var after := ForgetTx(db, u);
    ErasureIsExact(db, u, now);
    ErasureKeepsKeys(db.ledger, u);
    assert OpenDebits(after.ledger, u, p.Cutoff(now), excluded) == {};
    hide PickPlan, KeysOf, OpenDebits;
  }
}
