/** The stale-debit sweep: what it closes, what it leaves alone, and from whom it takes a credit back. */
module MeterSweep {
  import opened Option
  import opened Keys
  import opened Ledger
  import opened LedgerHistory
  import opened LedgerInvariant

  // Closing an order's debit touches no other row's openness.
  lemma SettlingClosesOnlyIts(l: seq<Entry>, e: Entry, i: nat)
    requires i < |l| && e.kind in {REFUND, CONSUME}
    ensures IsOpenDebit(l + [e], i) <==> IsOpenDebit(l, i) && !(l[i].order == e.order && l[i].gen == e.gen)
  {
    var m := l + [e];
    assert forall j :: 0 <= j < |l| ==> m[j] == l[j];
    assert m[|l|] == e;
    if IsOpenDebit(l, i) && !(l[i].order == e.order && l[i].gen == e.gen) {
      assert !Settled(m, m[i].order, m[i].gen);
    }
    if IsOpenDebit(m, i) {
      OpenOnlyShrinks(l, e, i);
    }
  }

  // An open debit's order has one open debit, holds credit, and its owner has an account.
  lemma OpenDebitStands(db: Db, i: nat, clock: int, p: Policy)
    requires Inv(db, clock, p) && i < |db.ledger| && IsOpenDebit(db.ledger, i)
    ensures db.ledger[i].order.Some?
    ensures var o := db.ledger[i].order.value;
      && Net(db.ledger, o) < 0 && Generation(db.ledger, o) == db.ledger[i].gen
      && Consume(o, db.ledger[i].gen) !in KeysOf(db.ledger) && Refund(o, db.ledger[i].gen) !in KeysOf(db.ledger)
    ensures db.ledger[i].user.Some? ==> db.ledger[i].user.value in db.accounts
    ensures forall j :: 0 <= j < |db.ledger| && j != i && IsOpenDebit(db.ledger, j) ==>
              db.ledger[j].order != db.ledger[i].order
  {
    OpenDebitIsCurrent(db.ledger, i, p);
    OrderStands(db.ledger, db.ledger[i].order.value, p);
    forall j | 0 <= j < |db.ledger| && j != i && IsOpenDebit(db.ledger, j)
      ensures db.ledger[j].order != db.ledger[i].order
    {
      OpenDebitIsCurrent(db.ledger, j, p);
    }
  }

  /** The row the sweep writes for one debit: a consumption if the kit exists, else a refund. */
  ghost predicate ClosedProperly(l: seq<Entry>, stale: StaleDebit, gen: nat) {
    if stale.state == Some(DELIVERED) then Consume(stale.order, gen) in KeysOf(l)
    else Refund(stale.order, gen) in KeysOf(l)
  }

  function ClosingRow(db: Db, stale: StaleDebit, now: int): Entry {
    var g := Generation(db.ledger, stale.order);
    if stale.state == Some(DELIVERED)
    then Entry(Some(stale.user), CONSUME, STALE_SETTLEMENT, 0, Some(stale.order), g, Consume(stale.order, g), now)
    else Entry(Some(stale.user), REFUND, STALE_SETTLEMENT, -Net(db.ledger, stale.order), Some(stale.order), g,
               Refund(stale.order, g), now)
  }

  lemma CloseWritesRow(db: Db, i: nat, stale: StaleDebit, now: int, p: Policy)
    requires Inv(db, now, p) && i < |db.ledger| && IsOpenDebit(db.ledger, i)
    requires db.ledger[i].user == Some(stale.user) && db.ledger[i].order == Some(stale.order)
    ensures var (closed, after) := CloseStale(db, stale, now);
      && closed && after.ledger == db.ledger + [ClosingRow(db, stale, now)] && after.orders == db.orders
      && Inv(after, now, p) && Generation(db.ledger, stale.order) == db.ledger[i].gen
  {
    hide RowsInv, PlansInv, SalesInv, BooksInv, IsOpenDebit, KeysOf, Net, Generation;
    OpenDebitStands(db, i, now, p);
    ConsumeKeeps(db, stale.user, stale.order, STALE_SETTLEMENT, now, p);
    RefundKeeps(db, stale.user, stale.order, STALE_SETTLEMENT, now, p);
  }

  lemma CloseOne(db: Db, i: nat, stale: StaleDebit, now: int, p: Policy)
    requires Inv(db, now, p) && i < |db.ledger| && IsOpenDebit(db.ledger, i)
    requires db.ledger[i].user == Some(stale.user) && db.ledger[i].order == Some(stale.order)
    ensures var (closed, after) := CloseStale(db, stale, now);
      && closed && |after.ledger| == |db.ledger| + 1 && after.ledger[..|db.ledger|] == db.ledger
      && ClosedProperly(after.ledger, stale, db.ledger[i].gen) && KeysOf(db.ledger) <= KeysOf(after.ledger)
      && (forall j: nat :: j < |db.ledger| ==> (IsOpenDebit(after.ledger, j) <==> IsOpenDebit(db.ledger, j) && j != i))
      && after.orders == db.orders && Inv(after, now, p)
  {
    hide Inv, IsOpenDebit, KeysOf, Net, Generation, CloseStale;
    CloseWritesRow(db, i, stale, now, p);
    var e := ClosingRow(db, stale, now);
    Append(db.ledger, e);
    OpenDebitStands(db, i, now, p);
    forall j: nat | j < |db.ledger|
      ensures IsOpenDebit(db.ledger + [e], j) <==> IsOpenDebit(db.ledger, j) && j != i
    {
      SettlingClosesOnlyIts(db.ledger, e, j);
    }
  }

  // After the first k picks exactly those are closed, each the way its order deserves.
  ghost predicate SweptSoFar(db: Db, picks: seq<nat>, k: nat, n: nat, after: Db)
    requires k <= |picks|
    requires forall j :: 0 <= j < |picks| ==>
      picks[j] < |db.ledger| && db.ledger[picks[j]].user.Some? && db.ledger[picks[j]].order.Some?
  {
    && n == k && |after.ledger| == |db.ledger| + k && after.ledger[..|db.ledger|] == db.ledger
    && after.orders == db.orders
    && (forall i: nat :: i < |db.ledger| ==>
          (IsOpenDebit(after.ledger, i) <==> IsOpenDebit(db.ledger, i) && i !in picks[..k]))
    && (forall j :: 0 <= j < k ==> ClosedProperly(after.ledger, StaleAt(db, picks[j]), db.ledger[picks[j]].gen))
  }

  lemma ClosedStays(l: seq<Entry>, m: seq<Entry>, stale: StaleDebit, gen: nat)
    requires KeysOf(l) <= KeysOf(m) && ClosedProperly(l, stale, gen)
    ensures ClosedProperly(m, stale, gen)
  {
    hide KeysOf;
  }

  lemma SweepStarts(db: Db, picks: seq<nat>)
    requires forall j :: 0 <= j < |picks| ==>
      picks[j] < |db.ledger| && db.ledger[picks[j]].user.Some? && db.ledger[picks[j]].order.Some?
    ensures SweptSoFar(db, picks, 0, 0, db)
  {
    hide IsOpenDebit;
    assert db.ledger[..|db.ledger|] == db.ledger && picks[..0] == [];
  }

  lemma SweptCounts(db: Db, picks: seq<nat>, k: nat, n: nat, after: Db)
    requires k <= |picks|
    requires forall j :: 0 <= j < |picks| ==>
      picks[j] < |db.ledger| && db.ledger[picks[j]].user.Some? && db.ledger[picks[j]].order.Some?
    requires SweptSoFar(db, picks, k, n, after)
    ensures n == k
  {
  }

  lemma SweepOneMore(db: Db, picks: seq<nat>, k: nat, swept: Db, now: int, p: Policy)
    requires Inv(swept, now, p) && k < |picks|
    requires forall j :: 0 <= j < |picks| ==>
      picks[j] < |db.ledger| && db.ledger[picks[j]].user.Some? && db.ledger[picks[j]].order.Some?
    requires SweptSoFar(db, picks, k, k, swept) && picks[k] !in picks[..k] && IsOpenDebit(db.ledger, picks[k])
    ensures var (closed, after) := CloseStale(swept, StaleAt(db, picks[k]), now);
      closed && Inv(after, now, p) && SweptSoFar(db, picks, k + 1, k + 1, after)
  {
    hide Inv, IsOpenDebit, KeysOf, CloseStale, ClosedProperly;
    var i, stale := picks[k], StaleAt(db, picks[k]);
    assert swept.ledger[i] == swept.ledger[..|db.ledger|][i] == db.ledger[i];
    CloseOne(swept, i, stale, now, p);
    var after := CloseStale(swept, stale, now).1;
    assert picks[..k + 1] == picks[..k] + [i];
    assert after.ledger[..|db.ledger|] == after.ledger[..|swept.ledger|][..|db.ledger|];
    forall j | 0 <= j < k + 1 ensures ClosedProperly(after.ledger, StaleAt(db, picks[j]), db.ledger[picks[j]].gen) {
      if j < k { ClosedStays(swept.ledger, after.ledger, StaleAt(db, picks[j]), db.ledger[picks[j]].gen); }
    }
  }

  lemma {:induction false} SweepInduction(db: Db, cutoff: int, limit: nat, picks: seq<nat>, k: nat, now: int, p: Policy)
    requires Inv(db, now, p) && IsSelection(db, cutoff, limit, picks) && k <= |picks|
    ensures var (n, after) := CloseAll(db, StalesAt(db, picks)[..k], now);
      Inv(after, now, p) && SweptSoFar(db, picks, k, n, after)
  {
    hide Inv, IsOpenDebit, CloseStale, ClosedProperly, SweptSoFar, KeysOf;
    var stales := StalesAt(db, picks);
    SweepStarts(db, picks);
    if k > 0 {
      SweepInduction(db, cutoff, limit, picks, k - 1, now, p);
      assert stales[..k][..k - 1] == stales[..k - 1];
      SweptCounts(db, picks, k - 1, CloseAll(db, stales[..k - 1], now).0, CloseAll(db, stales[..k - 1], now).1);
      StaleIsOpen(db, picks[k - 1], cutoff);
      assert picks[k - 1] !in picks[..k - 1];
      SweepOneMore(db, picks, k - 1, CloseAll(db, stales[..k - 1], now).1, now, p);
    }
  }

  lemma StaleIsOpen(db: Db, i: nat, cutoff: int)
    requires i < |db.ledger| && IsStale(db, i, cutoff)
    ensures IsOpenDebit(db.ledger, i)
  {
  }

  /**
   * Every selected debit is closed by the sweep, each exactly once, a delivered order's by
   * consuming and any other by refunding; no other debit is touched; and a sweep that was
   * not cut short by its limit leaves nothing stale behind.
   */
  lemma SweepClosesItsSelection(db: Db, cutoff: int, limit: nat, picks: seq<nat>, now: int, p: Policy)
    requires Inv(db, now, p) && IsSelection(db, cutoff, limit, picks)
    ensures var (n, after) := CloseAll(db, StalesAt(db, picks), now);
      && SweptSoFar(db, picks, |picks|, n, after)
      && (|picks| < limit ==> forall i: nat :: i < |after.ledger| ==> !IsStale(after, i, cutoff))
  {
    hide Inv, ClosedProperly, CloseStale, Settled;
    SweepInduction(db, cutoff, limit, picks, |picks|, now, p);
    var stales := StalesAt(db, picks);
    assert stales[..|picks|] == stales && picks[..|picks|] == picks;
    var (n, after) := CloseAll(db, stales, now);
    if |picks| < limit {
      forall i: nat | i < |after.ledger| ensures !IsStale(after, i, cutoff) {
        if i < |db.ledger| {
          assert after.ledger[i] == db.ledger[i];
        } else {
          NewRowsAreNoDebits(db, stales, now, i);
        }
      }
    }
  }

  /**
   * A debit the sweep is for: somebody's, for an order, with no refund and no consumption of its
   * attempt, and its order either cancelled, however young, or as silent as the debit is old.
   */
  ghost predicate IsDue(db: Db, i: nat, cutoff: int)
    requires i < |db.ledger|
  {
    var e := db.ledger[i];
    && e.kind == DEBIT && e.user.Some? && e.order.Some?
    && (forall j :: 0 <= j < |db.ledger| && db.ledger[j].order == e.order && db.ledger[j].gen == e.gen ==>
          db.ledger[j].kind !in {REFUND, CONSUME})
    && var o := e.order.value;
       (o in db.orders && db.orders[o].state == CANCELLED)
       || (e.at <= cutoff && (o !in db.orders || db.orders[o].updatedAt <= cutoff))
  }

  lemma DueIsStale(db: Db, i: nat, cutoff: int)
    requires i < |db.ledger|
    ensures IsDue(db, i, cutoff) <==> IsStale(db, i, cutoff)
    ensures IsDue(db, i, cutoff) ==> db.ledger[i].user.Some? && db.ledger[i].order.Some?
  {
  }

  /**
   * A sweep that its limit does not cut short closes each debit that is due, and the order's own row
   * says how: consumed if the kit was delivered, refunded otherwise. No sweep touches any other debit.
   */
  lemma SweepIsExact(db: Db, cutoff: int, limit: nat, picks: seq<nat>, now: int, p: Policy, i: nat)
    requires Inv(db, now, p) && IsSelection(db, cutoff, limit, picks) && i < |db.ledger|
    ensures var after := CloseAll(db, StalesAt(db, picks), now).1;
      && |db.ledger| <= |after.ledger|
      && (IsDue(db, i, cutoff) && |picks| < limit ==>
            var o, gen := db.ledger[i].order.value, db.ledger[i].gen;
            (if o in db.orders && db.orders[o].state == DELIVERED then Consume(o, gen) else Refund(o, gen))
              in KeysOf(after.ledger))
      && (!IsDue(db, i, cutoff) ==> (IsOpenDebit(after.ledger, i) <==> IsOpenDebit(db.ledger, i)))
  {
    hide Inv, CloseAll, IsOpenDebit, KeysOf, IsDue;
    SweepClosesItsSelection(db, cutoff, limit, picks, now, p);
    DueIsStale(db, i, cutoff);
    assert picks[..|picks|] == picks;
    var after := CloseAll(db, StalesAt(db, picks), now).1;
    if IsDue(db, i, cutoff) && |picks| < limit {
      var k :| 0 <= k < |picks| && picks[k] == i;
      assert ClosedProperly(after.ledger, StaleAt(db, picks[k]), db.ledger[picks[k]].gen);
    }
  }

  lemma {:induction false} NewRowsAreNoDebits(db: Db, stales: seq<StaleDebit>, now: int, i: nat)
    requires |db.ledger| <= i < |CloseAll(db, stales, now).1.ledger|
    ensures CloseAll(db, stales, now).1.ledger[i].kind != DEBIT
  {
    if stales != [] {
      var swept := CloseAll(db, stales[..|stales| - 1], now).1;
      if i < |swept.ledger| {
        NewRowsAreNoDebits(db, stales[..|stales| - 1], now, i);
      }
    }
    hide KeysOf, Net, Generation;
  }

  // ---- which orders a sweep takes the credit from -----------------------------------------------

  /** Where an order's latest debit stands in the ledger. */
  function LastDebit(l: seq<Entry>, o: Uuid): (r: Option<nat>)
    ensures r.Some? ==> r.value < |l| && l[r.value].kind == DEBIT && l[r.value].order == Some(o)
  {
    if l == [] then None else
      var n := |l| - 1;
      if l[n].kind == DEBIT && l[n].order == Some(o) then Some(n) else LastDebit(l[..n], o)
  }

  /** What a step can change about an order that is not its own: its net position and the age of its debit. */
  function Stands(l: seq<Entry>, o: Uuid): (int, Option<int>) {
    var i := LastDebit(l, o);
    (Net(l, o), if i.Some? then Some(l[i.value].at) else None)
  }

  lemma AppendStands(l: seq<Entry>, e: Entry, o: Uuid)
    ensures Stands(l + [e], o).0 == Stands(l, o).0 + Delta(e, e.order == Some(o))
    ensures Stands(l + [e], o).1 == if e.kind == DEBIT && e.order == Some(o) then Some(e.at) else Stands(l, o).1
  {
    Append(l, e);
    assert (l + [e])[..|l|] == l;
    hide Net;
  }

  lemma {:induction false} ErasureKeepsStanding(l: seq<Entry>, u: User, o: Uuid)
    ensures LastDebit(Anonymised(l, u), o) == LastDebit(l, o)
    ensures Stands(Anonymised(l, u), o) == Stands(l, o)
  {
    ErasureKeepsReads(l, u, o);
    hide Net;
    if l != [] {
      ErasureKeepsStanding(l[..|l| - 1], u, o);
      assert Anonymised(l, u)[..|l| - 1] == Anonymised(l[..|l| - 1], u);
    }
  }

  lemma {:induction false} LastDebitIsCurrent(l: seq<Entry>, o: Uuid, p: Policy)
    requires p.Valid() && Shapes(l, p) && Replay(l, o).Some? && Replay(l, o).value.held > 0
    ensures LastDebit(l, o).Some? && l[LastDebit(l, o).value].gen == Replay(l, o).value.gen
  {
    var n := |l| - 1;
    assert Shape(l[n], p);
    if !(l[n].kind == DEBIT && l[n].order == Some(o)) {
      LastDebitIsCurrent(l[..n], o, p);
    }
  }

  lemma OpenDebitIsLast(l: seq<Entry>, i: nat, o: Uuid, p: Policy)
    requires p.Valid() && History(l, p) && i < |l| && IsOpenDebit(l, i) && l[i].order == Some(o)
    ensures LastDebit(l, o) == Some(i)
  {
    OpenDebitIsCurrent(l, i, p);
    LastDebitIsCurrent(l, o, p);
    var k := LastDebit(l, o).value;
    assert Shape(l[k], p) && Shape(l[i], p);
    assert l[k].key == l[i].key;
  }

  /**
   * What the sweep's query asks of one order, read off its row and its latest debit: unspent,
   * owned, not marked delivered, and either cancelled or silent, debit and stamp alike,
   * since the cutoff.
   */
  predicate Robbable(db: Db, o: Uuid, cutoff: int) {
    var i := LastDebit(db.ledger, o);
    && i.Some? && db.ledger[i.value].user.Some? && IsOpenDebit(db.ledger, i.value)
    && (o in db.orders ==> db.orders[o].state != DELIVERED)
    && ((o in db.orders && db.orders[o].state == CANCELLED)
        || (db.ledger[i.value].at <= cutoff && (o !in db.orders || db.orders[o].updatedAt <= cutoff)))
  }

  // One of the first n picks refunds this order.
  ghost predicate RefundedAmong(db: Db, picks: seq<nat>, n: nat, o: Uuid)
    requires n <= |picks|
    requires forall j :: 0 <= j < |picks| ==>
      picks[j] < |db.ledger| && db.ledger[picks[j]].user.Some? && db.ledger[picks[j]].order.Some?
  {
    exists k :: 0 <= k < n && StaleAt(db, picks[k]).order == o && StaleAt(db, picks[k]).state != Some(DELIVERED)
  }

  lemma NobodyRefunded(db: Db, picks: seq<nat>, o: Uuid)
    requires forall j :: 0 <= j < |picks| ==>
      picks[j] < |db.ledger| && db.ledger[picks[j]].user.Some? && db.ledger[picks[j]].order.Some?
    ensures !RefundedAmong(db, picks, 0, o)
  {
  }

  lemma OneMoreRefunded(db: Db, picks: seq<nat>, k: nat, o: Uuid)
    requires k < |picks|
    requires forall j :: 0 <= j < |picks| ==>
      picks[j] < |db.ledger| && db.ledger[picks[j]].user.Some? && db.ledger[picks[j]].order.Some?
    ensures RefundedAmong(db, picks, k + 1, o)
       <==> RefundedAmong(db, picks, k, o)
            || (StaleAt(db, picks[k]).order == o && StaleAt(db, picks[k]).state != Some(DELIVERED))
  {
    hide StaleAt;
    if RefundedAmong(db, picks, k + 1, o) {
      var w :| 0 <= w < k + 1 && StaleAt(db, picks[w]).order == o && StaleAt(db, picks[w]).state != Some(DELIVERED);
    }
  }

  lemma {:induction false} SweepMovesNet(db: Db, cutoff: int, limit: nat, picks: seq<nat>, n: nat, now: int, p: Policy,
                                         o: Uuid)
    requires Inv(db, now, p) && IsSelection(db, cutoff, limit, picks) && n <= |picks|
    ensures Net(CloseAll(db, StalesAt(db, picks)[..n], now).1.ledger, o)
         == if RefundedAmong(db, picks, n, o) then 0 else Net(db.ledger, o)
  {
    hide Inv, IsOpenDebit, CloseStale, ClosedProperly, SweptSoFar, KeysOf, Net, Generation, RefundedAmong;
    var stales := StalesAt(db, picks);
    if n > 0 {
      var k := n - 1;
      SweepMovesNet(db, cutoff, limit, picks, k, now, p, o);
      SweepInduction(db, cutoff, limit, picks, k, now, p);
      assert stales[..n][..k] == stales[..k];
      var (count, swept) := CloseAll(db, stales[..k], now);
      StillOpen(db, cutoff, limit, picks, k, count, swept);
      CloseWritesRow(swept, picks[k], stales[k], now, p);
      Append(swept.ledger, ClosingRow(swept, stales[k], now));
      OneMoreRefunded(db, picks, k, o);
    } else {
      NobodyRefunded(db, picks, o);
    }
  }

  lemma StillOpen(db: Db, cutoff: int, limit: nat, picks: seq<nat>, k: nat, n: nat, swept: Db)
    requires IsSelection(db, cutoff, limit, picks) && k < |picks| && SweptSoFar(db, picks, k, n, swept)
    ensures var i := picks[k];
      && i < |swept.ledger| && swept.ledger[i] == db.ledger[i] && IsOpenDebit(swept.ledger, i)
  {
    hide IsOpenDebit;
    var i := picks[k];
    StaleIsOpen(db, i, cutoff);
    assert swept.ledger[i] == swept.ledger[..|db.ledger|][i];
    assert forall j :: 0 <= j < k ==> picks[j] != i;
  }

  /**
   * A sweep takes an order's credit back only from an order its query could see, and a sweep
   * not cut short by its limit takes it back from every such order. Both sides can be read
   * off the tables before the sweep runs.
   */
  lemma SweepRobsIff(db: Db, cutoff: int, limit: nat, picks: seq<nat>, now: int, p: Policy, o: Uuid)
    requires Inv(db, now, p) && IsSelection(db, cutoff, limit, picks) && Net(db.ledger, o) < 0
    ensures var after := CloseAll(db, StalesAt(db, picks), now).1;
      && (Net(after.ledger, o) >= 0 ==> Robbable(db, o, cutoff))
      && (Robbable(db, o, cutoff) && |picks| < limit ==> Net(after.ledger, o) >= 0)
      && (Net(after.ledger, o) < 0 ==> Net(after.ledger, o) == Net(db.ledger, o))
  {
    hide CloseAll, IsOpenDebit, KeysOf, Net;
    var stales := StalesAt(db, picks);
    assert stales[..|picks|] == stales;
    SweepMovesNet(db, cutoff, limit, picks, |picks|, now, p, o);
    InvRows(db, now, p);
    if RefundedAmong(db, picks, |picks|, o) {
      var k :| 0 <= k < |picks| && StaleAt(db, picks[k]).order == o && StaleAt(db, picks[k]).state != Some(DELIVERED);
      StaleIsOpen(db, picks[k], cutoff);
      OpenDebitIsLast(db.ledger, picks[k], o, p);
      assert IsStale(db, picks[k], cutoff);
    }
    if Robbable(db, o, cutoff) && |picks| < limit {
      var i := LastDebit(db.ledger, o).value;
      assert IsStale(db, i, cutoff);
      var k :| 0 <= k < |picks| && picks[k] == i;
      assert StaleAt(db, picks[k]).order == o;
    }
    hide Inv;
  }
}
