/** What a charge decides, read off the state before it; and how the read-only gate agrees. */
module MeterCharge {
  import opened Option
  import opened Keys
  import opened Periods
  import opened Ledger
  import opened LedgerHistory
  import opened LedgerInvariant

  // A plan supplies at most one song per charge, however many it has left.
  function Spendable(view: CreditBalance): int {
    view.credits - view.planSongsLeft + (if view.planSongsLeft > 0 then 1 else 0)
  }

  lemma GrantLeavesOrders(l: seq<Entry>, e: Entry, o: Uuid, u: User, cutoff: int, excluded: Option<Uuid>)
    requires e.kind == GRANT && e.order == None
    ensures Net(l + [e], o) == Net(l, o) && Generation(l + [e], o) == Generation(l, o)
    ensures OpenDebits(l + [e], u, cutoff, excluded) == OpenDebits(l, u, cutoff, excluded)
  {
    Append(l, e);
    var m := l + [e];
    FlightAfterRow(l, e, u, cutoff, excluded);
    forall i | i in OpenDebits(l, u, cutoff, excluded) ensures i in OpenDebits(m, u, cutoff, excluded) {
      assert forall j :: 0 <= j < |l| ==> m[j] == l[j];
    }
  }

  lemma MintIsInvisible(db: Db, u: User, now: int, p: Policy, excluded: Option<Uuid>)
    requires p.Valid() && u in db.accounts && AllowanceDue(db, u, now, p)
    ensures ReadBalance(Arrived(db, u, now, p), u, now, p, excluded) == ReadBalance(db, u, now, p, excluded)
  {
    hide PickPlan, Net, Generation, KeysOf, OpenDebits;
    var e := AllowanceRow(db, u, now, p);
    Append(db.ledger, e);
    GrantLeavesOrders(db.ledger, e, "", u, p.Cutoff(now), excluded);
  }

  /** Opening the account and minting the allowance is invisible to the projection. */
  lemma ArrivalIsInvisible(db: Db, u: User, o: Uuid, now: int, p: Policy, excluded: Option<Uuid>)
    requires p.Valid()
    ensures var a := Arrived(db, u, now, p);
      && ReadBalance(a, u, now, p, excluded) == ReadBalance(db, u, now, p, excluded)
      && Net(a.ledger, o) == Net(db.ledger, o) && Generation(a.ledger, o) == Generation(db.ledger, o)
      && a.accounts[u].balance == BalanceOf(db, u) + (if WindowUnminted(db, u, now, p) then p.allowance else 0)
  {
    hide PickPlan, Net, Generation, KeysOf, OpenDebits;
    var ready := Opened(db, u);
    assert ReadBalance(ready, u, now, p, excluded) == ReadBalance(db, u, now, p, excluded);
    if AllowanceDue(ready, u, now, p) {
      MintIsInvisible(ready, u, now, p, excluded);
      GrantLeavesOrders(ready.ledger, AllowanceRow(ready, u, now, p), o, u, p.Cutoff(now), excluded);
    }
  }

  // Under the invariant a fresh plan read always wins its song and credits it.
  lemma FreshSongIsTaken(db: Db, u: User, o: Uuid, now: int, p: Policy, excluded: Option<Uuid>)
    requires Inv(db, now, p) && u in db.accounts
    ensures var s := SongTaken(db, u, Sighted(db, u, now), now);
      var (before, after) := (ReadBalance(db, u, now, p, excluded), ReadBalance(s, u, now, p, excluded));
      && before.planSongsLeft >= 0
      && s.accounts[u].balance == db.accounts[u].balance + (if before.planSongsLeft > 0 then 1 else 0)
      && after.credits == before.credits && after.inFlight == before.inFlight
      && Net(s.ledger, o) == Net(db.ledger, o)
  {
    hide PickPlan, Net, Generation, KeysOf, OpenDebits, Inv, Shape;
    PlansOf(db, now, p);
    var sight := Sighted(db, u, now);
    if sight.Some? {
      var i := sight.value.plan;
      FreshSightHolds(db, u, now, p);
      SongTakenKeepsPlans(db, u, sight, now);
      var e := Entry(Some(u), GRANT, PLAN_SONG, 1, None, 0, PlanSong(i, sight.value.used), now);
      Append(db.ledger, e);
      GrantLeavesOrders(db.ledger, e, o, u, p.Cutoff(now), excluded);
      SongProjection(db, u, now, i);
    }
  }

  lemma PlansOf(db: Db, now: int, p: Policy)
    requires Inv(db, now, p)
    ensures PlansInv(db.plans, db.ledger, now)
    ensures forall i :: 0 <= i < |db.plans| ==> 0 <= db.plans[i].used <= db.plans[i].included
  {
    hide RowsInv, BooksInv, SalesInv;
  }

  // Only one plan runs at a time, so after a song is taken the same plan is still the one
  // that is projected, or none is.
  lemma SongProjection(db: Db, u: User, now: int, i: nat)
    requires PlansInv(db.plans, db.ledger, now) && LivePlan(db, u, now) == Some(i)
    ensures var plans := db.plans[i := db.plans[i].(used := db.plans[i].used + 1)];
      var live := PickPlan(plans, u, now, true);
      if db.plans[i].used + 1 < db.plans[i].included then live == Some(i) else live == None
  {
    hide PickPlan;
    OnePlanRuns(db.plans, db.ledger, u, now, i);
    var plans := db.plans[i := db.plans[i].(used := db.plans[i].used + 1)];
    assert Matches(plans[i], u, now, true) <==> plans[i].used < plans[i].included;
    assert forall j :: 0 <= j < |plans| && j != i ==> plans[j] == db.plans[j];
  }

  lemma OnePlanRuns(plans: seq<Plan>, l: seq<Entry>, u: User, now: int, i: nat)
    requires PlansInv(plans, l, now) && i < |plans| && IsCurrent(plans[i], u, now)
    ensures forall j :: 0 <= j < |plans| && j != i ==> !IsCurrent(plans[j], u, now)
  {
  }

  /**
   * "No plan" and "a plan with nothing left" are told apart. An end date is shown exactly
   * when a plan runs, spent or not; it is that plan's own, whichever one is looked at, and
   * songs are only ever shown out of that plan.
   */
  lemma PlanShownIsTheOneRunning(db: Db, u: User, now: int, p: Policy, excluded: Option<Uuid>)
    requires Inv(db, now, p)
    ensures var view := ReadBalance(db, u, now, p, excluded);
      && (view.planEndsAt.Some? <==> exists i :: 0 <= i < |db.plans| && IsCurrent(db.plans[i], u, now))
      && (view.planEndsAt.None? ==> view.planSongsLeft == 0)
      && (forall i :: 0 <= i < |db.plans| && IsCurrent(db.plans[i], u, now) ==>
            && view.planEndsAt == Some(db.plans[i].endsAt)
            && view.planSongsLeft == db.plans[i].included - db.plans[i].used)
  {
    hide PickPlan, OpenDebits, RowsInv, BooksInv, SalesInv;
    forall i | 0 <= i < |db.plans| && IsCurrent(db.plans[i], u, now)
      ensures forall j :: 0 <= j < |db.plans| && j != i ==> !IsCurrent(db.plans[j], u, now)
    {
      OnePlanRuns(db.plans, db.ledger, u, now, i);
    }
    assert forall i :: 0 <= i < |db.plans| ==> (Matches(db.plans[i], u, now, false) <==> IsCurrent(db.plans[i], u, now));
    assert forall i :: 0 <= i < |db.plans| && IsCurrent(db.plans[i], u, now) ==>
      (Matches(db.plans[i], u, now, true) <==> db.plans[i].used < db.plans[i].included);
  }

  // The states a charge passes through, measured from the state before it.
  lemma ChargePath(db: Db, u: User, o: Uuid, now: int, p: Policy, excluded: Option<Uuid>)
    requires p.Valid() && Inv(db, now, p)
    ensures var a := Arrived(db, u, now, p);
      var s := SongTaken(a, u, Sighted(db, u, now), now);
      var before := ReadBalance(db, u, now, p, excluded);
      && Inv(a, now, p) && Inv(s, now, p) && Sighted(a, u, now) == Sighted(db, u, now)
      && ReadBalance(a, u, now, p, excluded) == before && Net(a.ledger, o) == Net(db.ledger, o)
      && before.isBlocked == (u in db.blocked)
      && 0 <= before.planSongsLeft && 0 <= s.accounts[u].balance == Spendable(before)
      && Net(s.ledger, o) == Net(db.ledger, o)
      && ReadBalance(s, u, now, p, excluded).credits == before.credits
      && ReadBalance(s, u, now, p, excluded).inFlight == before.inFlight
      && (Net(db.ledger, o) >= 0 ==> Debit(o, Generation(s.ledger, o)) !in KeysOf(s.ledger))
  {
    hide PickPlan, KeysOf, Net, Generation, OpenDebits, Inv, SongTaken, AllowanceDue;
    ArrivalIsInvisible(db, u, o, now, p, excluded);
    ArrivedKeeps(db, u, now, p);
    var a := Arrived(db, u, now, p);
    FreshSongIsTaken(a, u, o, now, p, excluded);
    FreshSightHolds(a, u, now, p);
    SongTakenKeeps(a, u, Sighted(a, u, now), now, p);
    var s := SongTaken(a, u, Sighted(a, u, now), now);
    StandsFree(s, u, o, now, p);
  }

  lemma StandsFree(db: Db, u: User, o: Uuid, now: int, p: Policy)
    requires Inv(db, now, p) && u in db.accounts
    ensures db.accounts[u].balance >= 0
    ensures Net(db.ledger, o) >= 0 ==> Debit(o, Generation(db.ledger, o)) !in KeysOf(db.ledger)
  {
    hide History;
    OrderStands(db.ledger, o, p);
  }

  /** What one charge can reach: the balance, a due allowance, and the song if its claim wins. */
  function Reachable(db: Db, u: User, now: int, p: Policy, sight: Option<PlanSight>): int
    requires p.Valid()
  {
    BalanceOf(db, u) + (if WindowUnminted(db, u, now, p) then p.allowance else 0) + (if WinsSong(db, sight) then 1 else 0)
  }

  // The same path with a plan read that others may have overtaken.
  lemma RacedPath(db: Db, u: User, o: Uuid, now: int, p: Policy, sight: Option<PlanSight>)
    requires p.Valid() && Inv(db, now, p) && SightHolds(db, sight, now)
    ensures var a := Arrived(db, u, now, p);
      var s := SongTaken(a, u, sight, now);
      var before := ReadBalance(db, u, now, p, Some(o));
      && Inv(a, now, p) && Inv(s, now, p)
      && ReadBalance(a, u, now, p, Some(o)) == before && before.isBlocked == (u in db.blocked)
      && Net(a.ledger, o) == Net(db.ledger, o) == Net(s.ledger, o)
      && 0 <= s.accounts[u].balance == Reachable(db, u, now, p, sight)
      && (Net(db.ledger, o) >= 0 ==> Debit(o, Generation(s.ledger, o)) !in KeysOf(s.ledger))
  {
    hide PickPlan, Net, Generation, OpenDebits, Inv, AllowanceDue, KeysOf;
    ArrivalIsInvisible(db, u, o, now, p, Some(o));
    ArrivedKeeps(db, u, now, p);
    var a := Arrived(db, u, now, p);
    SongTakenKeeps(a, u, sight, now, p);
    SongLeavesOrders(a, u, sight, now, o, p);
    WonSongIsCredited(a, u, sight, now, p);
    StandsFree(SongTaken(a, u, sight, now), u, o, now, p);
  }

  // The key of a song still unclaimed is free, so a won claim always brings its credit.
  lemma WonSongIsCredited(db: Db, u: User, sight: Option<PlanSight>, now: int, p: Policy)
    requires Inv(db, now, p) && u in db.accounts
    ensures SongTaken(db, u, sight, now).accounts[u].balance == db.accounts[u].balance + (if WinsSong(db, sight) then 1 else 0)
  {
    hide RowsInv, BooksInv, SalesInv;
    if WinsSong(db, sight) {
      assert PlanSong(sight.value.plan, sight.value.used) !in KeysOf(db.ledger);
    }
  }

  /**
   * The whole decision, from the state before the charge, whatever other charges did to the
   * plan it had read. The order of the refusals is part of it: a paid order stays replayable
   * at the cap and without a credit, and a blocked account is refused even then.
   */
  lemma ChargeDecision(db: Db, u: User, o: Uuid, cost: int, now: int, p: Policy, sight: Option<PlanSight>)
    requires p.Valid() && Inv(db, now, p) && SightHolds(db, sight, now)
    ensures var view := ReadBalance(db, u, now, p, Some(o));
      var r := ChargeTx(db, u, o, cost, now, p, sight).0;
      if cost < 1 then r.BadCost?
      else if u in db.blocked then r.AccountBlocked?
      else if Net(db.ledger, o) < 0 then r.AlreadyPaid?
      else if view.inFlight >= p.maxInFlight then r == TooManyInFlight(view.inFlight)
      else if p.enforced && Reachable(db, u, now, p, sight) < cost then
        && r.InsufficientCredits? && r.shown == view.credits
        && now < r.nextGrantAt == PeriodStart(PeriodIndex(now, p.periodDays) + 1, p.periodDays)
      else r.Charged?
  {
    hide Inv, ReadBalance, SongTaken, Arrived, PaidFromBalance, PaidInTheDark, KeysOf, Net, Generation, Reachable;
    RacedPath(db, u, o, now, p, sight);
    WindowIsUnique(now, PeriodIndex(now, p.periodDays), p.periodDays);
  }

  // Nobody overtook a read made in the charge's own state, so it wins whenever a song is left.
  lemma FreshReach(db: Db, u: User, o: Uuid, now: int, p: Policy)
    requires p.Valid() && Inv(db, now, p)
    ensures Reachable(db, u, now, p, Sighted(db, u, now)) == Spendable(ReadBalance(db, u, now, p, Some(o)))
    ensures SightHolds(db, Sighted(db, u, now), now)
  {
    hide PickPlan, OpenDebits, RowsInv, BooksInv, SalesInv;
    FreshSightHolds(db, u, now, p);
  }

  lemma FreshChargeDecision(db: Db, u: User, o: Uuid, cost: int, now: int, p: Policy)
    requires p.Valid() && Inv(db, now, p)
    ensures var view := ReadBalance(db, u, now, p, Some(o));
      var r := Charge(db, u, o, cost, now, p).0;
      if cost < 1 then r.BadCost?
      else if u in db.blocked then r.AccountBlocked?
      else if Net(db.ledger, o) < 0 then r.AlreadyPaid?
      else if view.inFlight >= p.maxInFlight then r == TooManyInFlight(view.inFlight)
      else if p.enforced && Spendable(view) < cost then
        && r.InsufficientCredits? && r.shown == view.credits
        && now < r.nextGrantAt == PeriodStart(PeriodIndex(now, p.periodDays) + 1, p.periodDays)
      else r.Charged?
  {
    hide Inv, ReadBalance, ChargeTx, KeysOf, Net, Generation, Reachable, Sighted, Spendable;
    FreshReach(db, u, o, now, p);
    ChargeDecision(db, u, o, cost, now, p, Sighted(db, u, now));
  }

  /**
   * A charge that lost the race for a plan song falls through to the balance: where a fresh
   * read would have been served it is refused exactly when the song was the last credit short.
   */
  lemma LosersFallThrough(db: Db, u: User, o: Uuid, cost: int, now: int, p: Policy, sight: Option<PlanSight>)
    requires p.Valid() && Inv(db, now, p) && SightHolds(db, sight, now) && !WinsSong(db, sight)
    ensures var stored := BalanceOf(db, u) + (if WindowUnminted(db, u, now, p) then p.allowance else 0);
      ChargeTx(db, u, o, cost, now, p, sight).0.InsufficientCredits? && Charge(db, u, o, cost, now, p).0.Charged?
      <==> && cost >= 1 && u !in db.blocked && Net(db.ledger, o) >= 0 && p.enforced
           && ReadBalance(db, u, now, p, Some(o)).inFlight < p.maxInFlight
           && LivePlan(db, u, now).Some? && stored == cost - 1
  {
    hide Inv, ChargeTx, KeysOf, Net, Generation, PickPlan, WindowUnminted, OpenDebits;
    ChargeDecision(db, u, o, cost, now, p, sight);
    ChargePath(db, u, o, now, p, Some(o));
    FreshSightWins(db, u, now, p);
    FreshReach(db, u, o, now, p);
    ChargeDecision(db, u, o, cost, now, p, Sighted(db, u, now));
  }

  lemma FreshSightWins(db: Db, u: User, now: int, p: Policy)
    requires Inv(db, now, p)
    ensures WinsSong(db, Sighted(db, u, now)) <==> LivePlan(db, u, now).Some?
  {
    hide PickPlan, RowsInv, BooksInv, SalesInv;
  }

  /** A refused charge leaves nothing behind: no account, no allowance, no debit. */
  lemma RefusalRollsBack(db: Db, u: User, o: Uuid, cost: int, now: int, p: Policy, sight: Option<PlanSight>)
    requires p.Valid()
    ensures var (r, after) := ChargeTx(db, u, o, cost, now, p, sight);
      r.Charged? || r.AlreadyPaid? || after == db
  {
  }

  /**
   * The projection agrees with the writer at the price that ships: the gate shows a credit
   * exactly when an enforced charge would not be refused for lack of one.
   */
  lemma GateAgreesWithWriter(db: Db, u: User, o: Uuid, now: int, p: Policy)
    requires Inv(db, now, p) && p.enforced
    requires u !in db.blocked && Net(db.ledger, o) >= 0
    requires ReadBalance(db, u, now, p, Some(o)).inFlight < p.maxInFlight
    ensures ReadBalance(db, u, now, p, None).credits >= 1 <==> Charge(db, u, o, 1, now, p).0.Charged?
    ensures ReadBalance(db, u, now, p, None).credits < 1 <==> Charge(db, u, o, 1, now, p).0.InsufficientCredits?
  {
    FreshChargeDecision(db, u, o, 1, now, p);
    ChargePath(db, u, o, now, p, Some(o));
    CreditsCoverParts(db, u, now, p);
    hide Inv;
  }

  lemma CreditsCoverParts(db: Db, u: User, now: int, p: Policy)
    requires Inv(db, now, p)
    ensures var view := ReadBalance(db, u, now, p, None);
      view.credits >= view.planSongsLeft >= 0 && view.credits >= BalanceOf(db, u) >= 0
  {
  }

  /**
   * At a dearer price the gate can overstate, and exactly so: it shows `cost` credits to an
   * account that is then refused if and only if two or more of them are unminted plan songs
   * that one charge cannot all reach.
   */
  lemma GateOverstatesExactlyWhen(db: Db, u: User, o: Uuid, cost: int, now: int, p: Policy)
    requires Inv(db, now, p) && p.enforced && cost >= 1
    requires u !in db.blocked && Net(db.ledger, o) >= 0
    requires ReadBalance(db, u, now, p, Some(o)).inFlight < p.maxInFlight
    ensures var view := ReadBalance(db, u, now, p, None);
      view.credits >= cost && Charge(db, u, o, cost, now, p).0.InsufficientCredits?
      <==> view.planSongsLeft >= 2 && cost <= view.credits < cost + view.planSongsLeft - 1
  {
    FreshChargeDecision(db, u, o, cost, now, p);
    ChargePath(db, u, o, now, p, Some(o));
    hide Inv;
  }

  const NO_ALLOWANCE := SHIPPED.(allowance := 0)
  const TWO_SONGS_LEFT := EMPTY.(plans := [Plan(Some(7), 2, 0, 0, "", PlanSale("k"), DAY, 0)])

  lemma TwoSongsHold()
    ensures Inv(TWO_SONGS_LEFT, 0, NO_ALLOWANCE)
  {
    hide Inv;
    EmptyHolds(0, NO_ALLOWANCE);
    var purchase := Purchase(STARTER, 0, "", true);
    assert PlanSaleTx(EMPTY, 7, purchase, 2, 1, "k", 0).1 == TWO_SONGS_LEFT;
    PlanSaleKeeps(EMPTY, 7, purchase, 2, 1, "k", 0, NO_ALLOWANCE);
  }

  lemma TwoSongsShow(excluded: Option<Uuid>)
    ensures var view := ReadBalance(TWO_SONGS_LEFT, 7, 0, NO_ALLOWANCE, excluded);
      view.credits == 2 == view.planSongsLeft && view.inFlight == 0
  {
    hide IsOpenDebit, KeysOf;
    var plan := TWO_SONGS_LEFT.plans[0];
    assert Matches(plan, 7, 0, true);
    assert OpenDebits([], 7, NO_ALLOWANCE.Cutoff(0), excluded) == {};
  }

  /** Such an account exists: two plan songs left, an empty balance, a render that costs two. */
  lemma GateCanOverstate()
    ensures Inv(TWO_SONGS_LEFT, 0, NO_ALLOWANCE) && ReadBalance(TWO_SONGS_LEFT, 7, 0, NO_ALLOWANCE, None).credits == 2
    ensures Charge(TWO_SONGS_LEFT, 7, "order", 2, 0, NO_ALLOWANCE).0.InsufficientCredits?
  {
    hide Inv, Charge, ReadBalance;
    TwoSongsHold();
    TwoSongsShow(None);
    TwoSongsShow(Some("order"));
    FreshChargeDecision(TWO_SONGS_LEFT, 7, "order", 2, 0, NO_ALLOWANCE);
  }

  // Another person's plan, or one whose owner is gone, decides nothing about this one's.
  lemma {:induction false} OthersPlanIsIgnored(plans: seq<Plan>, i: nat, plan: Plan, u: User, now: int, unspent: bool)
    requires i < |plans| && plans[i].user != Some(u) && plan.user != Some(u)
    ensures PickPlan(plans[i := plan], u, now, unspent) == PickPlan(plans, u, now, unspent)
  {
    var n := |plans| - 1;
    if i < n {
      OthersPlanIsIgnored(plans[..n], i, plan, u, now, unspent);
      assert plans[i := plan][..n] == plans[..n][i := plan];
    } else {
      assert plans[i := plan][..n] == plans[..n];
    }
  }

  // A won song whose plan no longer belongs to this person: its owner was erased after the read.
  predicate WinsFromNobody(db: Db, u: User, sight: Option<PlanSight>) {
    WinsSong(db, sight) && db.plans[sight.value.plan].user != Some(u)
  }

  lemma OwnSightIsFresh(db: Db, u: User, sight: Option<PlanSight>, now: int, p: Policy)
    requires Inv(db, now, p) && SightHolds(db, sight, now) && WinsSong(db, sight) && !WinsFromNobody(db, u, sight)
    ensures Sighted(db, u, now) == sight
  {
    hide RowsInv, BooksInv, SalesInv, PickPlan;
    OnePlanRuns(db.plans, db.ledger, u, now, sight.value.plan);
    assert Matches(db.plans[sight.value.plan], u, now, true);
  }

  // What claiming a song does to the projection, whoever else has been claiming.
  lemma SongMovesProjection(db: Db, u: User, sight: Option<PlanSight>, now: int, p: Policy)
    requires Inv(db, now, p) && u in db.accounts && SightHolds(db, sight, now)
    ensures var before := ReadBalance(db, u, now, p, None);
      var after := ReadBalance(SongTaken(db, u, sight, now), u, now, p, None);
      && after.credits == before.credits + (if WinsFromNobody(db, u, sight) then 1 else 0)
      && after.inFlight == before.inFlight
  {
    hide Inv, PickPlan, KeysOf, OpenDebits, Net, Generation;
    if WinsFromNobody(db, u, sight) {
      NobodysSongAddsOne(db, u, sight, now, p);
    } else if WinsSong(db, sight) {
      OwnSightIsFresh(db, u, sight, now, p);
      FreshSongIsTaken(db, u, "", now, p, None);
    }
  }

  lemma NobodysSongMovesNoPlan(db: Db, u: User, sight: Option<PlanSight>, now: int)
    requires u in db.accounts && WinsFromNobody(db, u, sight)
    ensures var after := SongTaken(db, u, sight, now);
      var live := LivePlan(db, u, now);
      && LivePlan(after, u, now) == live && CurrentPlan(after, u, now) == CurrentPlan(db, u, now)
      && (live.Some? ==> live.value < |db.plans| == |after.plans| && after.plans[live.value] == db.plans[live.value])
  {
    hide PickPlan, KeysOf;
    var i := sight.value.plan;
    var plan := db.plans[i].(used := sight.value.used + 1);
    OthersPlanIsIgnored(db.plans, i, plan, u, now, true);
    OthersPlanIsIgnored(db.plans, i, plan, u, now, false);
  }

  lemma SongRow(db: Db, u: User, sight: Option<PlanSight>, now: int, p: Policy)
    requires Inv(db, now, p) && u in db.accounts && WinsSong(db, sight)
    ensures var after := SongTaken(db, u, sight, now);
      && BalanceOf(after, u) == BalanceOf(db, u) + 1 && after.blocked == db.blocked
      && WindowUnminted(after, u, now, p) == WindowUnminted(db, u, now, p)
      && InFlight(after.ledger, u, p.Cutoff(now), None) == InFlight(db.ledger, u, p.Cutoff(now), None)
  {
    hide Inv, KeysOf, OpenDebits, Net, Generation;
    WonSongIsCredited(db, u, sight, now, p);
    var e := Entry(Some(u), GRANT, PLAN_SONG, 1, None, 0, PlanSong(sight.value.plan, sight.value.used), now);
    Append(db.ledger, e);
    GrantLeavesOrders(db.ledger, e, "", u, p.Cutoff(now), None);
  }

  lemma NobodysSongAddsOne(db: Db, u: User, sight: Option<PlanSight>, now: int, p: Policy)
    requires Inv(db, now, p) && u in db.accounts && WinsFromNobody(db, u, sight)
    ensures var before := ReadBalance(db, u, now, p, None);
      var after := ReadBalance(SongTaken(db, u, sight, now), u, now, p, None);
      after.credits == before.credits + 1 && after.inFlight == before.inFlight
  {
    hide Inv, SongTaken, LivePlan, CurrentPlan, InFlight, WindowUnminted, BalanceOf;
    NobodysSongMovesNoPlan(db, u, sight, now);
    SongRow(db, u, sight, now, p);
  }

  /**
   * What a charge does to the number on the customer's screen, whatever became of the plan it had
   * read: it falls by the cost when the charge can reach that much and not at all when it was
   * covered or already paid, and one render more is in flight. A song won from a plan whose owner
   * was erased meanwhile shows as one credit gained.
   */
  lemma ChargeMovesProjection(db: Db, u: User, o: Uuid, cost: int, now: int, p: Policy, sight: Option<PlanSight>)
    requires p.Valid() && Inv(db, now, p) && SightHolds(db, sight, now)
    ensures var view := ReadBalance(db, u, now, p, None);
      var (r, after) := ChargeTx(db, u, o, cost, now, p, sight);
      && (r.AlreadyPaid? ==> r.balance == view)
      && (r.Charged? ==>
            && r.balance == ReadBalance(after, u, now, p, None)
            && r.balance.credits == view.credits + (if WinsFromNobody(db, u, sight) then 1 else 0)
                                    - (if Reachable(db, u, now, p, sight) >= cost then cost else 0)
            && r.balance.inFlight == view.inFlight + 1)
  {
    hide Inv, ReadBalance, SongTaken, Arrived, PaidFromBalance, PaidInTheDark, KeysOf, Net, Generation;
    RacedPath(db, u, o, now, p, sight);
    ArrivalIsInvisible(db, u, o, now, p, None);
    var a := Arrived(db, u, now, p);
    SongMovesProjection(a, u, sight, now, p);
    if ChargeTx(db, u, o, cost, now, p, sight).0.Charged? {
      PayingMovesProjection(SongTaken(a, u, sight, now), u, o, cost, now, p);
    }
  }

  lemma PayingMovesProjection(db: Db, u: User, o: Uuid, cost: int, now: int, p: Policy)
    requires Inv(db, now, p) && u in db.accounts && cost >= 1 && Net(db.ledger, o) >= 0
    ensures var b := ReadBalance(PaidFromBalance(db, u, o, cost, now), u, now, p, None);
      var d := ReadBalance(PaidInTheDark(db, u, o, cost, now), u, now, p, None);
      var view := ReadBalance(db, u, now, p, None);
      && b.credits == view.credits - cost && d.credits == view.credits
      && b.inFlight == view.inFlight + 1 == d.inFlight
  {
    hide PickPlan, KeysOf, Net, Generation, OpenDebits, RowsInv, PlansInv, BooksInv, SalesInv;
    InvRows(db, now, p);
    var e, c := DebitRow(db, u, o, cost, now), CoverRow(db, u, o, cost, now);
    Append(db.ledger, e);
    Append(db.ledger + [e], c);
    FreshDebitFlies(db.ledger, e, u, o, p.Cutoff(now), p);
    GrantLeavesOrders(db.ledger + [e], c, o, u, p.Cutoff(now), None);
  }

  lemma FreshDebitFlies(l: seq<Entry>, e: Entry, u: User, o: Uuid, cutoff: int, p: Policy)
    requires p.Valid() && History(l, p) && Net(l, o) >= 0 && e.at >= cutoff
    requires e.kind == DEBIT && e.user == Some(u) && e.order == Some(o) && e.gen == Generation(l, o)
    ensures InFlight(l + [e], u, cutoff, None) == InFlight(l, u, cutoff, None) + 1
  {
    var m := l + [e];
    OrderStands(l, o, p);
    SettledByKey(l, o, e.gen, p);
    FlightAfterRow(l, e, u, cutoff, None);
    assert forall j :: 0 <= j < |l| ==> m[j] == l[j];
    assert OpenDebits(m, u, cutoff, None) == OpenDebits(l, u, cutoff, None) + {|l|};
  }

  /**
   * With enforcement off, a shortfall grant is written on exactly the charges the enforced
   * policy would have refused for credit, and on no others.
   */
  lemma CoverMeasuresRefusals(db: Db, u: User, o: Uuid, cost: int, now: int, p: Policy, sight: Option<PlanSight>)
    requires Inv(db, now, p) && !p.enforced && SightHolds(db, sight, now)
    ensures var g := Generation(db.ledger, o);
      var after := ChargeTx(db, u, o, cost, now, p, sight).1;
      Unenforced(o, g) in KeysOf(after.ledger) && Unenforced(o, g) !in KeysOf(db.ledger)
      <==> ChargeTx(db, u, o, cost, now, p.(enforced := true), sight).0.InsufficientCredits?
  {
    hide PickPlan, KeysOf, Net, Generation, OpenDebits, RowsInv, PlansInv, BooksInv, SalesInv;
    var q := p.(enforced := true);
    var a := Arrived(db, u, now, p);
    assert Arrived(db, u, now, q) == a;
    assert ReadBalance(a, u, now, q, Some(o)) == ReadBalance(a, u, now, p, Some(o));
    ArrivalIsInvisible(db, u, o, now, p, Some(o));
    ArrivedKeeps(db, u, now, p);
    SongTakenKeeps(a, u, sight, now, p);
    var s := SongTaken(a, u, sight, now);
    SongLeavesOrders(a, u, sight, now, o, p);
    BalanceNotNegative(s, u);
    var k := Unenforced(o, Generation(db.ledger, o));
    ArrivalKeys(db, u, now, p, k);
    SongKeys(a, u, sight, now, k);
    PaymentKeys(s, u, o, cost, now);
    if Net(db.ledger, o) >= 0 { CoverIsUnused(s.ledger, o, now, p); }
  }

  // Arriving writes no key but an allowance's, and taking a song none but a song's.
  lemma ArrivalKeys(db: Db, u: User, now: int, p: Policy, k: Key)
    requires p.Valid() && !k.Period?
    ensures k in KeysOf(Arrived(db, u, now, p).ledger) <==> k in KeysOf(db.ledger)
  {
    hide KeysOf;
    var ready := Opened(db, u);
    Append(ready.ledger, AllowanceRow(ready, u, now, p));
  }

  lemma SongKeys(db: Db, u: User, sight: Option<PlanSight>, now: int, k: Key)
    requires u in db.accounts && !k.PlanSong?
    ensures k in KeysOf(SongTaken(db, u, sight, now).ledger) <==> k in KeysOf(db.ledger)
  {
    hide KeysOf;
    if WinsSong(db, sight) {
      Append(db.ledger, Entry(Some(u), GRANT, PLAN_SONG, 1, None, 0, PlanSong(sight.value.plan, sight.value.used), now));
    }
  }

  lemma PaymentKeys(db: Db, u: User, o: Uuid, cost: int, now: int)
    requires u in db.accounts
    ensures var k := Unenforced(o, Generation(db.ledger, o));
      && k in KeysOf(PaidInTheDark(db, u, o, cost, now).ledger)
      && (k in KeysOf(PaidFromBalance(db, u, o, cost, now).ledger) <==> k in KeysOf(db.ledger))
  {
    hide KeysOf, Generation;
    var e := DebitRow(db, u, o, cost, now);
    Append(db.ledger, e);
    Append(db.ledger + [e], CoverRow(db, u, o, cost, now));
  }

  // The key the cover would use is unused as long as the order holds nothing.
  lemma CoverIsUnused(l: seq<Entry>, o: Uuid, clock: int, p: Policy)
    requires p.Valid() && RowsInv(l, clock, p) && Net(l, o) >= 0
    ensures Unenforced(o, Generation(l, o)) !in KeysOf(l) && Debit(o, Generation(l, o)) !in KeysOf(l)
  {
    hide History, Capped, Dated;
    OrderStands(l, o, p);
  }
}
