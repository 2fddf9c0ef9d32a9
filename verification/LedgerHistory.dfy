/**
 * What the rows of one order can look like, and how every read of the ledger changes when
 * a row is appended or an account is erased.
 */
module LedgerHistory {
  import opened Counting
  import opened Option
  import opened Keys
  import opened Periods
  import opened Ledger

  /** Where an order stands: its attempt, what that attempt holds, whether it was consumed. */
  datatype Phase = Phase(gen: nat, held: nat, consumed: bool)

  /** The order life cycle, as a machine that reads one row at a time and may get stuck. */
  function Advance(before: Option<Phase>, e: Entry): Option<Phase> {
    if before.None? then None else
      var p := before.value;
      if e.gen != p.gen then None else
        match e.kind
        case DEBIT => if p.held == 0 && e.delta < 0 then Some(Phase(p.gen, -e.delta, false)) else None
        case REFUND => if p.held > 0 && e.delta == p.held then Some(Phase(p.gen + 1, 0, false)) else None
        case CONSUME => if p.held > 0 && !p.consumed && e.delta == 0 then Some(p.(consumed := true)) else None
        case GRANT => None
  }

  /** The machine run over an order's rows; `None` when they are not a legal life. */
  function Replay(l: seq<Entry>, o: Uuid): Option<Phase> {
    if l == [] then Some(Phase(0, 0, false)) else
      var before := Replay(l[..|l| - 1], o);
      if l[|l| - 1].order == Some(o) then Advance(before, l[|l| - 1]) else before
  }

  /** A row is what its idempotency key says it is. */
  ghost predicate Shape(e: Entry, p: Policy)
    requires p.Valid()
  {
    && (e.reason == UNENFORCED_RENDER <==> e.key.Unenforced?)
    && match e.key
       case Period(u, i) =>
         e.kind == GRANT && e.order == None && e.delta == p.allowance >= 1
         && i == PeriodIndex(e.at, p.periodDays) && (e.user == None || e.user == Some(u))
       case PlanSong(_, _) => e.kind == GRANT && e.order == None && e.delta == 1
       case Debit(o, g) => e.kind == DEBIT && e.order == Some(o) && e.gen == g && e.delta < 0
       case Refund(o, g) => e.kind == REFUND && e.order == Some(o) && e.gen == g && e.delta > 0
       case Consume(o, g) => e.kind == CONSUME && e.order == Some(o) && e.gen == g && e.delta == 0
       case Unenforced(_, _) => e.kind == GRANT && e.order == None && e.delta > 0
       case AdminGrant(_) => e.kind == GRANT && e.order == None && e.delta > 0
       case SingleSale(_) => e.kind == GRANT && e.order == None && e.delta == TOPUP_CREDITS
       case PlanSale(_) => false
  }

  ghost predicate Shapes(l: seq<Entry>, p: Policy)
    requires p.Valid()
  {
    forall i :: 0 <= i < |l| ==> Shape(l[i], p)
  }

  ghost predicate Unique(l: seq<Entry>) {
    forall i, j :: 0 <= i < j < |l| ==> l[i].key != l[j].key
  }

  ghost predicate Legal(l: seq<Entry>) {
    forall o: Uuid :: Replay(l, o).Some?
  }

  ghost predicate History(l: seq<Entry>, p: Policy)
    requires p.Valid()
  {
    Shapes(l, p) && Unique(l) && Legal(l)
  }

  // ---- appending -----------------------------------------------------------------------

  function Delta(e: Entry, counts: bool): int { if counts then e.delta else 0 }

  lemma Append(l: seq<Entry>, e: Entry)
    ensures KeysOf(l + [e]) == KeysOf(l) + {e.key}
    ensures forall u :: Sum(l + [e], u) == Sum(l, u) + Delta(e, e.user == u)
    ensures forall u :: Given(l + [e], u) == Given(l, u) + Delta(e, e.user == Some(u) && Gift(e))
    ensures forall o :: Net(l + [e], o) == Net(l, o) + Delta(e, e.order == Some(o))
    ensures forall o :: Generation(l + [e], o)
                     == Generation(l, o) + (if e.order == Some(o) && e.kind == REFUND then 1 else 0)
    ensures forall o :: Replay(l + [e], o) == if e.order == Some(o) then Advance(Replay(l, o), e) else Replay(l, o)
  {
    var m := l + [e];
    assert m[..|m| - 1] == l;
    assert KeysOf(m) == KeysOf(l) + {e.key} by {
      assert m[|l|] == e;
      assert forall i :: 0 <= i < |l| ==> m[i] == l[i];
      forall k | k in KeysOf(l) + {e.key} ensures k in KeysOf(m) {
        if k in KeysOf(l) {
          var i :| 0 <= i < |l| && l[i].key == k;
          assert m[i].key == k;
        }
      }
    }
  }

  lemma AppendKeepsHistory(l: seq<Entry>, e: Entry, p: Policy)
    requires p.Valid() && History(l, p) && Shape(e, p) && e.key !in KeysOf(l)
    requires e.order.Some? ==> Advance(Replay(l, e.order.value), e).Some?
    ensures History(l + [e], p)
  {
    Append(l, e);
    forall i, j | 0 <= i < j < |l + [e]| ensures (l + [e])[i].key != (l + [e])[j].key {
      assert (l + [e])[i].key in KeysOf(l);
    }
  }

  // ---- what a legal history tells ---------------------------------------------------------

  lemma {:induction false} ReplayTells(l: seq<Entry>, o: Uuid, p: Policy)
    requires p.Valid() && Shapes(l, p) && Replay(l, o).Some?
    ensures var ph := Replay(l, o).value; Net(l, o) + ph.held == 0 && Generation(l, o) == ph.gen
    ensures var ph := Replay(l, o).value;
      forall g: nat :: Debit(o, g) in KeysOf(l) <==> g < ph.gen || (g == ph.gen && ph.held > 0)
    ensures var ph := Replay(l, o).value; forall g: nat :: Refund(o, g) in KeysOf(l) <==> g < ph.gen
    ensures var ph := Replay(l, o).value; ph.consumed <==> Consume(o, ph.gen) in KeysOf(l)
    ensures var ph := Replay(l, o).value;
      forall g: nat :: Consume(o, g) in KeysOf(l) ==> Debit(o, g) in KeysOf(l)
    ensures Replay(l, o).value.consumed ==> Replay(l, o).value.held > 0
  {
    if l != [] {
      var n := |l| - 1;
      var e := l[n];
      assert l == l[..n] + [e];
      ReplayTells(l[..n], o, p);
      Append(l[..n], e);
      assert Shape(e, p);
    }
  }

  /** Where the order stands, read off the sums and the keys the program itself looks at. */
  lemma OrderStands(l: seq<Entry>, o: Uuid, p: Policy)
    requires p.Valid() && History(l, p)
    ensures Replay(l, o).Some?
    ensures var ph := Replay(l, o).value;
      && Net(l, o) + ph.held == 0 && Generation(l, o) == ph.gen
      && (Debit(o, ph.gen) in KeysOf(l) <==> ph.held > 0) && Refund(o, ph.gen) !in KeysOf(l)
      && (Consume(o, ph.gen) in KeysOf(l) <==> ph.consumed) && (ph.consumed ==> ph.held > 0)
  {
    assert Replay(l, o).Some?;
    ReplayTells(l, o, p);
  }

  lemma InKeys(l: seq<Entry>, i: nat)
    requires i < |l|
    ensures l[i].key in KeysOf(l)
  {
  }

  lemma SettledByKey(l: seq<Entry>, o: Uuid, g: nat, p: Policy)
    requires p.Valid() && Shapes(l, p)
    ensures Settled(l, Some(o), g) <==> Consume(o, g) in KeysOf(l) || Refund(o, g) in KeysOf(l)
  {
    if Settled(l, Some(o), g) {
      var j :| 0 <= j < |l| && l[j].order == Some(o) && l[j].gen == g && l[j].kind in {REFUND, CONSUME};
      assert Shape(l[j], p);
      InKeys(l, j);
    }
    if Consume(o, g) in KeysOf(l) || Refund(o, g) in KeysOf(l) {
      var j :| 0 <= j < |l| && l[j].key in {Consume(o, g), Refund(o, g)};
      assert Shape(l[j], p);
    }
  }

  /** A debit is open exactly when it is its order's current attempt, held and unconsumed. */
  lemma OpenDebitIsCurrent(l: seq<Entry>, i: nat, p: Policy)
    requires p.Valid() && History(l, p) && i < |l| && l[i].kind == DEBIT
    ensures l[i].order.Some? && l[i].key == Debit(l[i].order.value, l[i].gen)
    ensures var ph := Replay(l, l[i].order.value).value;
      IsOpenDebit(l, i) <==> l[i].gen == ph.gen && ph.held > 0 && !ph.consumed
  {
    assert Shape(l[i], p);
    var o := l[i].order.value;
    InKeys(l, i);
    ReplayTells(l, o, p);
    SettledByKey(l, o, l[i].gen, p);
  }

  // ---- the in-flight count -------------------------------------------------------------------

  lemma OpenOnlyShrinks(l: seq<Entry>, e: Entry, i: nat)
    requires i < |l| && IsOpenDebit(l + [e], i)
    ensures IsOpenDebit(l, i)
  {
    var m := l + [e];
    assert m[i] == l[i];
    assert forall j :: 0 <= j < |l| ==> m[j] == l[j];
  }

  /** A row adds at most itself to anybody's open debits, and only when it is a debit. */
  lemma FlightAfterRow(l: seq<Entry>, e: Entry, u: User, cutoff: int, excluded: Option<Uuid>)
    ensures e.kind == DEBIT && e.user == Some(u) ==>
      OpenDebits(l + [e], u, cutoff, excluded) <= OpenDebits(l, u, cutoff, excluded) + {|l|}
    ensures e.kind != DEBIT || e.user != Some(u) ==>
      OpenDebits(l + [e], u, cutoff, excluded) <= OpenDebits(l, u, cutoff, excluded)
  {
    var m := l + [e];
    forall i | i in OpenDebits(m, u, cutoff, excluded) && i < |l|
      ensures i in OpenDebits(l, u, cutoff, excluded)
    {
      OpenOnlyShrinks(l, e, i);
      assert m[i] == l[i];
    }
  }

  /** An order that holds nothing has no open debit, so leaving it out changes nothing. */
  lemma FlightWithoutIdleOrder(l: seq<Entry>, u: User, cutoff: int, o: Uuid, p: Policy)
    requires p.Valid() && History(l, p) && Net(l, o) >= 0
    ensures OpenDebits(l, u, cutoff, None) == OpenDebits(l, u, cutoff, Some(o))
  {
    ReplayTells(l, o, p);
    forall i | i in OpenDebits(l, u, cutoff, None) ensures i in OpenDebits(l, u, cutoff, Some(o)) {
      OpenDebitIsCurrent(l, i, p);
    }
  }

  lemma FlightAges(l: seq<Entry>, u: User, earlier: int, later: int)
    requires earlier <= later
    ensures InFlight(l, u, later, None) <= InFlight(l, u, earlier, None)
  {
    SubsetSize(OpenDebits(l, u, later, None), OpenDebits(l, u, earlier, None));
  }

  /** A debit of this person's that no refund and no consumption has settled, at most `grace` seconds old. */
  ghost predicate IsRendering(l: seq<Entry>, k: int, u: User, now: int, grace: int) {
    && 0 <= k < |l| && l[k].kind == DEBIT && l[k].user == Some(u) && now <= l[k].at + grace * 1_000_000
    && forall j :: 0 <= j < |l| && l[j].order == l[k].order && l[j].gen == l[k].gen ==> l[j].kind !in {REFUND, CONSUME}
  }

  /** All of them, or all but one order's. */
  ghost function Rendering(l: seq<Entry>, u: User, now: int, grace: int, except: Option<Uuid>): set<int> {
    set k | 0 <= k < |l| && IsRendering(l, k, u, now, grace) && (except.None? || l[k].order != except)
  }

  /** The in-flight count is a count of these. */
  lemma FlightIsRendering(l: seq<Entry>, u: User, now: int, p: Policy, except: Option<Uuid>)
    ensures OpenDebits(l, u, p.Cutoff(now), except) == Rendering(l, u, now, p.grace, except)
    ensures InFlight(l, u, p.Cutoff(now), except) == |Rendering(l, u, now, p.grace, except)|
  {
    forall k | 0 <= k < |l|
      ensures k in OpenDebits(l, u, p.Cutoff(now), except) <==> k in Rendering(l, u, now, p.grace, except)
    {
    }
  }

  // ---- erasing -------------------------------------------------------------------------------

  lemma {:induction false} ErasureKeepsReads(l: seq<Entry>, u: User, o: Uuid)
    ensures Net(Anonymised(l, u), o) == Net(l, o)
    ensures Generation(Anonymised(l, u), o) == Generation(l, o)
    ensures Replay(Anonymised(l, u), o) == Replay(l, o)
  {
    if l != [] {
      ErasureKeepsReads(l[..|l| - 1], u, o);
      assert Anonymised(l, u)[..|l| - 1] == Anonymised(l[..|l| - 1], u);
    }
  }

  lemma {:induction false} ErasureMovesSums(l: seq<Entry>, u: User)
    ensures Sum(Anonymised(l, u), Some(u)) == 0
    ensures Sum(Anonymised(l, u), None) == Sum(l, None) + Sum(l, Some(u))
    ensures forall v :: v != u ==> Sum(Anonymised(l, u), Some(v)) == Sum(l, Some(v))
    ensures forall v :: Given(Anonymised(l, u), v) == if v == u then 0 else Given(l, v)
  {
    if l != [] {
      ErasureMovesSums(l[..|l| - 1], u);
      assert Anonymised(l, u)[..|l| - 1] == Anonymised(l[..|l| - 1], u);
    }
  }

  lemma ErasureKeepsKeys(l: seq<Entry>, u: User)
    ensures KeysOf(Anonymised(l, u)) == KeysOf(l)
  {
    var a := Anonymised(l, u);
    forall k | k in KeysOf(l) ensures k in KeysOf(a) {
      var i :| 0 <= i < |l| && l[i].key == k;
      assert a[i].key == k;
    }
  }

  lemma ErasureKeepsHistory(l: seq<Entry>, u: User, p: Policy)
    requires p.Valid() && History(l, p)
    ensures History(Anonymised(l, u), p)
  {
    forall o: Uuid ensures Replay(Anonymised(l, u), o).Some? {
      ErasureKeepsReads(l, u, o);
    }
    var a := Anonymised(l, u);
    forall i | 0 <= i < |a| ensures Shape(a[i], p) {
      assert Shape(l[i], p);
    }
  }

  lemma ErasureKeepsOpen(l: seq<Entry>, u: User, i: nat)
    requires i < |l|
    ensures IsOpenDebit(Anonymised(l, u), i) == IsOpenDebit(l, i)
  {
    var a := Anonymised(l, u);
    if Settled(l, l[i].order, l[i].gen) {
      var j :| 0 <= j < |l| && l[j].order == l[i].order && l[j].gen == l[i].gen && l[j].kind in {REFUND, CONSUME};
      assert a[j].order == a[i].order && a[j].gen == a[i].gen && a[j].kind in {REFUND, CONSUME};
    }
    if Settled(a, a[i].order, a[i].gen) {
      var j :| 0 <= j < |a| && a[j].order == a[i].order && a[j].gen == a[i].gen && a[j].kind in {REFUND, CONSUME};
      assert l[j].order == l[i].order && l[j].gen == l[i].gen && l[j].kind in {REFUND, CONSUME};
    }
  }

  lemma ErasureEmptiesFlight(l: seq<Entry>, u: User, v: User, cutoff: int)
    ensures OpenDebits(Anonymised(l, u), v, cutoff, None) == if v == u then {} else OpenDebits(l, v, cutoff, None)
  {
    forall i: nat | i < |l| ensures IsOpenDebit(Anonymised(l, u), i) == IsOpenDebit(l, i) {
      ErasureKeepsOpen(l, u, i);
    }
  }
}
