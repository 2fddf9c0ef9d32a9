/**
 * Materialising a campaign's audience page by page, under jobs that are killed, replayed and
 * run side by side from cursors they read some time ago, while the accounts the segment
 * selects change underneath them.
 *
 * An account is named by its place in the walk, which its creation fixes; a cursor is the
 * last account of the page before it.
 */
module Expansion {
  import opened Counting
  import opened Option

  type Account = int

  type Cursor = Option<Account>

  datatype State = EXPANDING | READY | SENDING_STATE | PAUSED | COMPLETED | CANCELLED | FAILED_STATE

  /** True for an account that was blocked when its row was written. */
  type Ledger = map<Account, bool>

  /** `rows` are the ones that still name their account; `blanks` are the ones erasure has emptied. */
  datatype Campaign = Campaign(state: State, cursor: Cursor, recipientCount: int, rows: Ledger, blanks: nat)
  {
    function Size(): nat { |rows| + blanks }
  }

  function Inserted(rows: Ledger, page: seq<Account>, blocked: set<Account>): Ledger {
    if page == [] then rows else
      var earlier := Inserted(rows, page[..|page| - 1], blocked);
      var a := page[|page| - 1];
      if a in earlier then earlier else earlier[a := a in blocked]
  }

  predicate After(cursor: Cursor, a: Account) { cursor.None? || a > cursor.value }

  /**
   * What the keyset query answers: of the accounts the segment selects at that moment, those
   * past the cursor, in walk order, one more than the limit at most and none passed over.
   */
  predicate IsScan(matching: set<Account>, cursor: Cursor, limit: nat, scanned: seq<Account>) {
    && |scanned| <= limit + 1 && (forall i, j :: 0 <= i < j < |scanned| ==> scanned[i] < scanned[j])
    && (forall a :: a in scanned ==> a in matching && After(cursor, a))
    && (forall a :: a in matching && After(cursor, a) && a !in scanned ==> |scanned| == limit + 1 && a > scanned[limit])
  }

  // The probe row past the limit only says that there is a next page.
  function Kept(scanned: seq<Account>, limit: nat): seq<Account> {
    if |scanned| > limit then scanned[..limit] else scanned
  }

  function NextCursor(scanned: seq<Account>, limit: nat): Cursor {
    if |scanned| > limit >= 1 then Some(scanned[limit - 1]) else None
  }

  /** One page of a query's answer; the progress update applies only while expanding. */
  function Expand(c: Campaign, scanned: seq<Account>, limit: nat, blocked: set<Account>): (bool, Campaign) {
    var rows := Inserted(c.rows, Kept(scanned, limit), blocked);
    if c.state != EXPANDING then (false, c.(rows := rows))
    else
      var next := NextCursor(scanned, limit);
      (true, c.(state := if next.Some? then EXPANDING else READY, cursor := next,
                recipientCount := c.recipientCount + (|rows| - |c.rows|), rows := rows))
  }

  /** A page adds a row for each of its accounts that has none, and touches no other. */
  lemma {:induction false} InsertedAddsThePage(rows: Ledger, page: seq<Account>, blocked: set<Account>)
    ensures var after := Inserted(rows, page, blocked);
      && (forall a :: a in after <==> a in rows || a in page)
      && (forall a :: a in after ==> after[a] == if a in rows then rows[a] else a in blocked)
  {
    if page != [] {
      var n := |page| - 1;
      InsertedAddsThePage(rows, page[..n], blocked);
      assert forall a :: a in page <==> a in page[..n] || a == page[n];
    }
  }

  lemma KeysWithin(m: Ledger, s: set<Account>)
    requires forall a :: a in m ==> a in s
    ensures m.Keys <= s && |m| == |m.Keys|
  {
    forall a | a in m.Keys ensures a in s { assert a in m; }
  }

  lemma KeysCover(m: Ledger, s: set<Account>)
    requires forall a :: a in s ==> a in m
    ensures s <= m.Keys && |m| == |m.Keys|
  {
    forall a | a in s ensures a in m.Keys { assert a in m; }
  }

  lemma RowsGrow(rows: Ledger, page: seq<Account>, blocked: set<Account>)
    ensures |rows| <= |Inserted(rows, page, blocked)|
    ensures |rows| == |Inserted(rows, page, blocked)| <==> forall a :: a in page ==> a in rows
  {
    hide Inserted;
    InsertedAddsThePage(rows, page, blocked);
    var after := Inserted(rows, page, blocked);
    KeysWithin(rows, rows.Keys);
    KeysCover(after, rows.Keys);
    PeelSize(after.Keys, rows.Keys);
    if a :| a in page && a !in rows {
      assert a in after.Keys - rows.Keys;
    } else {
      KeysWithin(after, rows.Keys);
      assert after.Keys == rows.Keys;
    }
  }

  /**
   * What one page does. Its first `limit` accounts have their rows, whatever the campaign's state; only
   * while it expands is the count moved, by the rows that are new, and the page's answer followed: on
   * from the last of those accounts if there was one more to see, and ready if there was not.
   */
  lemma PageIsExact(c: Campaign, scanned: seq<Account>, limit: nat, blocked: set<Account>)
    requires limit >= 1
    ensures var (moved, after) := Expand(c, scanned, limit, blocked);
      && (moved <==> c.state == EXPANDING) && after.blanks == c.blanks
      && (forall a :: a in after.rows <==> a in c.rows || exists i :: 0 <= i < |scanned| && i < limit && scanned[i] == a)
      && (forall a :: a in after.rows ==> after.rows[a] == if a in c.rows then c.rows[a] else a in blocked)
      && (!moved ==> after == c.(rows := after.rows))
      && (moved ==>
            && after.recipientCount == c.recipientCount + |after.rows| - |c.rows|
            && if |scanned| > limit then after.state == EXPANDING && after.cursor == Some(scanned[limit - 1])
               else after.state == READY && after.cursor == None)
  {
    var page := Kept(scanned, limit);
    InsertedAddsThePage(c.rows, page, blocked);
    assert |page| == if |scanned| > limit then limit else |scanned|;
    forall a ensures a in page <==> exists i :: 0 <= i < |scanned| && i < limit && scanned[i] == a {
      if a in page {
        var i :| 0 <= i < |page| && page[i] == a;
        assert scanned[i] == a;
      }
      if i :| 0 <= i < |scanned| && i < limit && scanned[i] == a { assert page[i] == a; }
    }
    hide Inserted;
  }

  /** Re-running a page writes nothing. */
  lemma ReplayedPageWritesNothing(rows: Ledger, page: seq<Account>, blocked: set<Account>, later: set<Account>)
    ensures Inserted(Inserted(rows, page, blocked), page, later) == Inserted(rows, page, blocked)
  {
    InsertedAddsThePage(rows, page, blocked);
    InsertedAddsThePage(Inserted(rows, page, blocked), page, later);
    hide Inserted;
    var once, twice := Inserted(rows, page, blocked), Inserted(Inserted(rows, page, blocked), page, later);
    assert twice.Keys == once.Keys by { assert forall a :: a in twice <==> a in once; }
    assert forall a :: a in once ==> twice[a] == once[a];
  }

  // ---- runs ---------------------------------------------------------------------------------

  /**
   * A page knows what the segment selected when its query ran. A roll-up recounts the rows at the
   * end of a send chunk; erasure takes the account off its row and leaves the row.
   */
  datatype Step =
    | ReadPlan
    | ExpandFrom(cursor: Cursor, limit: nat, matching: set<Account>, scanned: seq<Account>, blocked: set<Account>)
    | StateMoves(to: State)
    | RollUp
    | Erase(a: Account)

  /**
   * The campaign; every cursor some job has read, any of which may still be acted on; the accounts
   * erased after their row was written; and whether sending has started.
   */
  datatype World = World(campaign: Campaign, held: set<Cursor>, erased: set<Account>, isStarted: bool)

  predicate Can(w: World, step: Step) {
    match step
    case ReadPlan => w.campaign.state == EXPANDING
    case ExpandFrom(cursor, limit, matching, scanned, _) =>
      cursor in w.held && limit >= 1 && IsScan(matching, cursor, limit, scanned)
    // Nothing leaves EXPANDING for READY but the last page, and nothing goes back.
    case StateMoves(to) => to != EXPANDING && (w.campaign.state == EXPANDING ==> to in {CANCELLED, FAILED_STATE})
                           && (to == READY ==> w.campaign.state == READY)
                           && (w.campaign.state in {COMPLETED, CANCELLED, FAILED_STATE} ==> to == w.campaign.state)
    // Only a send chunk rolls up, and it may do so after the campaign was paused or stopped.
    case RollUp => w.isStarted
    case Erase(_) => true
  }

  function Erased(c: Campaign, a: Account): Campaign {
    if a in c.rows then c.(rows := c.rows - {a}, blanks := c.blanks + 1) else c
  }

  function Do(w: World, step: Step): World {
    match step
    case ReadPlan => w.(held := w.held + {w.campaign.cursor})
    case ExpandFrom(_, limit, _, scanned, blocked) => w.(campaign := Expand(w.campaign, scanned, limit, blocked).1)
    case StateMoves(to) => w.(campaign := w.campaign.(state := to), isStarted := w.isStarted || to == SENDING_STATE)
    case RollUp => w.(campaign := w.campaign.(recipientCount := w.campaign.Size()))
    case Erase(a) =>
      w.(campaign := Erased(w.campaign, a), erased := if a in w.campaign.rows then w.erased + {a} else w.erased)
  }

  const BORN := World(Campaign(EXPANDING, None, 0, map[], 0), {}, {}, false)

  lemma ErasureKeepsSize(c: Campaign, a: Account)
    ensures Erased(c, a).Size() == c.Size() && forall k :: k in Erased(c, a).rows <==> k in c.rows && k != a
  {
    if a in c.rows {
      KeysWithin(c.rows, c.rows.Keys);
      KeysWithin(c.rows - {a}, c.rows.Keys - {a});
      KeysCover(c.rows - {a}, c.rows.Keys - {a});
      PeelSize(c.rows.Keys, {a});
    }
  }

  // Every account that was selected all along, up to the cursor, has its row or had it until it was erased.
  ghost predicate Walked(w: World, always: set<Account>, cursor: Cursor) {
    forall a :: a in always && !After(cursor, a) ==> a in w.campaign.rows || a in w.erased
  }

  predicate Stopped(s: State) { s in {CANCELLED, FAILED_STATE} }

  ghost predicate ExpansionInv(w: World, always: set<Account>, ever: set<Account>) {
    var c := w.campaign;
    && (c.state == EXPANDING ==> Walked(w, always, c.cursor) && c.recipientCount == c.Size())
    && (forall held :: held in w.held ==> Walked(w, always, held))
    && (forall a :: a in c.rows || a in w.erased ==> a in ever)
    && (w.erased == {} ==> c.blanks == 0)
    && (c.state != EXPANDING && !Stopped(c.state) ==>
          && (forall a :: a in always ==> a in c.rows || a in w.erased)
          && (always == ever && w.erased == {} ==> c.recipientCount == c.Size()))
  }

  /** The segment went on selecting `always` and never selected anything outside `ever`. */
  predicate Selects(step: Step, always: set<Account>, ever: set<Account>) {
    step.ExpandFrom? ==> always <= step.matching <= ever
  }

  lemma PageWalks(w: World, step: Step, always: set<Account>)
    requires step.ExpandFrom? && Can(w, step) && Walked(w, always, step.cursor) && always <= step.matching
    ensures var after := Do(w, step);
      if |step.scanned| > step.limit then Walked(after, always, NextCursor(step.scanned, step.limit))
      else forall a :: a in always ==> a in after.campaign.rows || a in after.erased
  {
    hide Inserted;
    var scanned, limit := step.scanned, step.limit;
    InsertedAddsThePage(w.campaign.rows, Kept(scanned, limit), step.blocked);
    forall a | a in always && (|scanned| > limit ==> a <= scanned[limit - 1]) && After(step.cursor, a)
      ensures a in Kept(scanned, limit)
    {
      assert a in scanned;
      var i :| 0 <= i < |scanned| && scanned[i] == a;
      assert |scanned| > limit ==> i < limit;
      assert Kept(scanned, limit)[i] == a;
    }
  }

  lemma ExpandKeeps(w: World, step: Step, always: set<Account>, ever: set<Account>)
    requires step.ExpandFrom? && Can(w, step) && ExpansionInv(w, always, ever) && Selects(step, always, ever)
    ensures ExpansionInv(Do(w, step), always, ever)
  {
    hide IsScan, Inserted, Kept, After;
    var c, page := w.campaign, Kept(step.scanned, step.limit);
    assert Walked(w, always, step.cursor);
    KeptAreSelected(step.matching, step.cursor, step.limit, step.scanned);
    PageWalks(w, step, always);
    InsertedAddsThePage(c.rows, page, step.blocked);
    RowsGrow(c.rows, page, step.blocked);
  }

  lemma KeptAreSelected(matching: set<Account>, cursor: Cursor, limit: nat, scanned: seq<Account>)
    requires IsScan(matching, cursor, limit, scanned)
    ensures forall a :: a in Kept(scanned, limit) ==> a in matching
  {
    assert forall a :: a in Kept(scanned, limit) ==> a in scanned;
  }

  lemma StepKeeps(w: World, step: Step, always: set<Account>, ever: set<Account>)
    requires Can(w, step) && ExpansionInv(w, always, ever) && Selects(step, always, ever)
    ensures ExpansionInv(Do(w, step), always, ever)
  {
    hide Expand, Erased, After;
    if step.ExpandFrom? { ExpandKeeps(w, step, always, ever); }
    if step.Erase? { ErasureKeepsSize(w.campaign, step.a); ErasedFields(w.campaign, step.a); }
  }

  lemma ErasedFields(c: Campaign, a: Account)
    ensures Erased(c, a).state == c.state && Erased(c, a).cursor == c.cursor && Erased(c, a).recipientCount == c.recipientCount
    ensures a !in c.rows ==> Erased(c, a) == c
  {
  }

  ghost predicate IsRun(states: seq<World>, steps: seq<Step>) {
    |states| == |steps| + 1 && states[0] == BORN && forall i :: 0 <= i < |steps| ==>
      Can(states[i], steps[i]) && states[i + 1] == Do(states[i], steps[i])
  }

  ghost predicate AllSelect(steps: seq<Step>, always: set<Account>, ever: set<Account>) {
    forall i :: 0 <= i < |steps| ==> Selects(steps[i], always, ever)
  }

  lemma {:induction false} RunKeeps(states: seq<World>, steps: seq<Step>, always: set<Account>, ever: set<Account>, i: nat)
    requires IsRun(states, steps) && AllSelect(steps, always, ever) && i <= |steps|
    ensures ExpansionInv(states[i], always, ever)
  {
    hide Do, Can, Selects;
    if i > 0 {
      RunKeeps(states, steps, always, ever, i - 1);
      StepKeeps(states[i - 1], steps[i - 1], always, ever);
    }
  }

  /**
   * A campaign that reaches READY has a row for each account its segment selected all along,
   * unless that account was erased since, and for none it never selected, in whatever order pages
   * were replayed or resumed; and when the selection held still and nobody was erased, one row for
   * each account of it and a count that says so, before any roll-up and after every one.
   */
  lemma ReadyMeansComplete(states: seq<World>, steps: seq<Step>, always: set<Account>, ever: set<Account>, i: nat)
    requires IsRun(states, steps) && AllSelect(steps, always, ever) && i <= |steps|
    requires states[i].campaign.state in {READY, SENDING_STATE, PAUSED, COMPLETED}
    ensures always <= states[i].campaign.rows.Keys + states[i].erased && states[i].campaign.rows.Keys <= ever
    ensures always == ever && states[i].erased == {} ==>
      states[i].campaign.rows.Keys == ever && states[i].campaign.recipientCount == |ever|
  {
    RunKeeps(states, steps, always, ever, i);
    var rows := states[i].campaign.rows;
    KeysWithin(rows, ever);
    KeysCover(rows, always - states[i].erased);
  }

  /** Rows are never rewritten: who was skipped stays skipped, whoever re-reads the page. */
  lemma RowsAreWrittenOnce(c: Campaign, scanned: seq<Account>, limit: nat, blocked: set<Account>, a: Account)
    requires a in c.rows
    ensures var after := Expand(c, scanned, limit, blocked).1; a in after.rows && after.rows[a] == c.rows[a]
  {
    InsertedAddsThePage(c.rows, Kept(scanned, limit), blocked);
  }

  // ---- what the count misses ----------------------------------------------------------------------

  // A page that runs after the expansion is over finds nobody without a row.
  predicate FindsNobody(c: Campaign, step: Step) {
    step.ExpandFrom? && c.state != EXPANDING ==> forall a :: a in Kept(step.scanned, step.limit) ==> a in c.rows
  }

  lemma CountStep(w: World, step: Step)
    requires Can(w, step) && w.campaign.recipientCount <= w.campaign.Size()
    ensures var (c, after) := (w.campaign, Do(w, step).campaign);
      && after.recipientCount <= after.Size()
      && (after.recipientCount == after.Size()
          <==> step.RollUp? || (c.recipientCount == c.Size() && FindsNobody(c, step)))
  {
    hide Inserted, Erased;
    if step.ExpandFrom? { RowsGrow(w.campaign.rows, Kept(step.scanned, step.limit), step.blocked); }
    if step.Erase? { ErasureKeepsSize(w.campaign, step.a); ErasedFields(w.campaign, step.a); }
  }

  /** The rows are recounted after step k and before state i. */
  predicate RecountedSince(steps: seq<Step>, k: nat, i: nat)
    requires i <= |steps|
  {
    exists m :: k < m < i && steps[m].RollUp?
  }

  /**
   * The stored count is the number of rows if and only if no page that outran the end of the
   * expansion found an account without one since the last roll-up, or at all if there was none.
   * Such a page's progress update is refused; its rows are not.
   */
  lemma {:induction false} CountIsExactIff(states: seq<World>, steps: seq<Step>, i: nat)
    requires IsRun(states, steps) && i <= |steps|
    ensures states[i].campaign.recipientCount <= states[i].campaign.Size()
    ensures states[i].campaign.recipientCount == states[i].campaign.Size()
       <==> forall k :: 0 <= k < i ==> FindsNobody(states[k].campaign, steps[k]) || RecountedSince(steps, k, i)
  {
    hide Do, Can, FindsNobody;
    if i > 0 {
      CountIsExactIff(states, steps, i - 1);
      CountStep(states[i - 1], steps[i - 1]);
      if steps[i - 1].RollUp? {
        RollUpFindsNobody(states[i - 1].campaign, steps[i - 1]);
        forall k | 0 <= k < i - 1 ensures RecountedSince(steps, k, i) { assert k < i - 1 < i && steps[i - 1].RollUp?; }
      } else {
        forall k | 0 <= k < i ensures RecountedSince(steps, k, i) == RecountedSince(steps, k, i - 1) {}
        assert !RecountedSince(steps, i - 1, i);
      }
    }
  }

  lemma RollUpFindsNobody(c: Campaign, step: Step)
    requires step.RollUp?
    ensures FindsNobody(c, step)
  {
  }

  /**
   * Two jobs read the same plan; one finishes the expansion; then a customer signs up, and the
   * other job's page, refused its progress, still adds a row to the finished audience: to be
   * sent to, though the customer joined after the audience was taken, and missing from the count
   * until the first chunk that is sent rolls it up.
   */
  lemma LatePageIsUncounted() returns (states: seq<World>, steps: seq<Step>)
    ensures IsRun(states, steps) && |steps| == 5
    ensures states[2].campaign.state == READY && states[2].campaign.rows.Keys == {2}
    ensures states[3].campaign.state == READY && states[3].campaign.rows.Keys == {1, 2}
    ensures states[3].campaign.recipientCount == states[4].campaign.recipientCount == 1
    ensures states[4].campaign.state == SENDING_STATE && steps[4].RollUp? && states[5].campaign.recipientCount == 2
  {
    hide Inserted, IsScan;
    TheTwoScans();
    steps := [ReadPlan, ExpandFrom(None, 500, {2}, [2], {}), ExpandFrom(None, 500, {1, 2}, [1, 2], {}),
              StateMoves(SENDING_STATE), RollUp];
    var read := Do(BORN, steps[0]);
    var ready := Do(read, steps[1]);
    InsertedAddsThePage(map[], [2], {});
    RowsGrow(map[], [2], {});
    assert forall a :: a in ready.campaign.rows <==> a == 2;
    KeysWithin(ready.campaign.rows, {2});
    KeysCover(ready.campaign.rows, {2});
    var late := Do(ready, steps[2]);
    InsertedAddsThePage(ready.campaign.rows, [1, 2], {});
    KeysWithin(late.campaign.rows, {1, 2});
    KeysCover(late.campaign.rows, {1, 2});
    var sending := Do(late, steps[3]);
    states := [BORN, read, ready, late, sending, Do(sending, steps[4])];
    assert |{1, 2}| == 2;
  }

  lemma TheTwoScans()
    ensures IsScan({2}, None, 500, [2]) && IsScan({1, 2}, None, 500, [1, 2])
  {
  }
}
