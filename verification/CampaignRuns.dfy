/**
 * One campaign from its creation on: pages writing the audience out, chunks sending to it, roll-ups
 * and erasures, in any interleaving. What the plan knows of the rows and what the ledger holds are
 * proved to agree, so that accounts, rows and messages can be counted together.
 */
module CampaignRuns {
  import opened Option
  import E = Expansion
  import B = Broadcast
  import A = BroadcastAccounts

  datatype World = World(plan: E.World, ledger: B.World)

  /** A page writes rows in both; erasure reaches both; a roll-up counts the ledger for the plan. */
  datatype Step =
    | Plan(plan: E.Step)
    | Page(page: E.Step, ids: seq<B.RowId>)
    | RollUp
    | Erase(u: int)
    | Send(send: B.Step)

  const START := World(E.BORN, B.World(map[], map[], map[], map[]))

  predicate Unused(w: B.World, ids: seq<B.RowId>) {
    && (forall i :: 0 <= i < |ids| ==> ids[i] !in w.rows && ids[i] !in w.owners)
    && (forall i, j :: 0 <= i < j < |ids| ==> ids[i] != ids[j])
  }

  predicate Can(w: World, step: Step) {
    match step
    case Plan(s) => (s.ReadPlan? || s.StateMoves?) && E.Can(w.plan, s)
    case Page(s, ids) =>
      s.ExpandFrom? && E.Can(w.plan, s) && |ids| == |E.Kept(s.scanned, s.limit)| && Unused(w.ledger, ids)
    case RollUp => E.Can(w.plan, E.RollUp)
    case Erase(_) => true
    // A chunk starts only on a campaign that is sending.
    case Send(s) => !s.Add? && !s.Forget? && B.Can(w.ledger, s) && (s.Start? ==> w.plan.campaign.state == E.SENDING_STATE)
  }

  /** The inserts of one page, each deciding for itself. */
  function Added(w: B.World, page: seq<int>, ids: seq<B.RowId>, blocked: set<int>, now: int): (after: B.World)
    requires |ids| == |page| && Unused(w, ids)
    ensures forall id :: id in after.rows || id in after.owners ==> id in w.rows || id in w.owners || id in ids
  {
    if page == [] then w else
      var n := |page| - 1;
      var earlier := Added(w, page[..n], ids[..n], blocked, now);
      assert forall i :: 0 <= i < n ==> ids[..n][i] == ids[i];
      B.Do(earlier, B.Add(page[n], ids[n], page[n] in blocked), now)
  }

  function Do(w: World, step: Step, now: int): World
    requires Can(w, step)
  {
    match step
    case Plan(s) => w.(plan := E.Do(w.plan, s))
    case Page(s, ids) => World(E.Do(w.plan, s), Added(w.ledger, E.Kept(s.scanned, s.limit), ids, s.blocked, now))
    case RollUp => w.(plan := E.Do(w.plan, E.RollUp))
    case Erase(u) => World(E.Do(w.plan, E.Erase(u)), B.Do(w.ledger, B.Forget(u), now))
    case Send(s) => w.(ledger := B.Do(w.ledger, s, now))
  }

  // ---- the two agree ---------------------------------------------------------------------------

  // Which accounts have a row that names them, which ever had one, and how many rows there are.
  ghost predicate Agree(rows: E.Ledger, size: nat, ledger: B.World) {
    && (forall u: int :: B.Named(ledger.rows, u) <==> u in rows) && |ledger.rows| == size
  }

  ghost predicate Linked(w: World) {
    && A.AccountInv(w.ledger) && Agree(w.plan.campaign.rows, w.plan.campaign.Size(), w.ledger)
    && (forall u: int :: |A.RowsOf(w.ledger, u)| >= 1 <==> u in w.plan.campaign.rows || u in w.plan.erased)
  }

  lemma SameSize(a: B.Rows, b: B.Rows)
    requires forall id :: id in a <==> id in b
    ensures |a| == |b|
  {
    assert a.Keys == b.Keys by {
      forall id | id in a.Keys ensures id in b.Keys { assert id in a; }
      forall id | id in b.Keys ensures id in a.Keys { assert id in b; }
    }
    assert |a| == |a.Keys| && |b| == |b.Keys|;
  }

  lemma OneMoreRow(rows: B.Rows, id: B.RowId, row: B.Recipient)
    requires id !in rows
    ensures |rows[id := row]| == |rows| + 1
  {
    assert rows[id := row].Keys == rows.Keys + {id};
    assert |rows| == |rows.Keys| && |rows[id := row]| == |rows[id := row].Keys|;
  }

  // One insert: who is named and how many rows there are.
  lemma AddAgrees(w: B.World, u: int, id: B.RowId, isBlocked: bool, now: int)
    requires A.AccountInv(w) && B.Can(w, B.Add(u, id, isBlocked))
    ensures var after := B.Do(w, B.Add(u, id, isBlocked), now);
      && A.AccountInv(after) && (forall v: int :: B.Named(after.rows, v) <==> B.Named(w.rows, v) || v == u)
      && |after.rows| == |w.rows| + (if B.Named(w.rows, u) then 0 else 1)
  {
    hide B.Do, A.AccountInv;
    var step := B.Add(u, id, isBlocked);
    var after := B.Do(w, step, now);
    A.StepKeepsAccounts(w, step, now);
    A.AddWritesOne(w, u, id, isBlocked, now);
    if !B.Named(w.rows, u) { OneMoreRow(w.rows, id, after.rows[id]); }
    forall v: int ensures B.Named(after.rows, v) <==> B.Named(w.rows, v) || v == u {
      A.StepMovesNames(w, step, now, v);
    }
  }

  // A page's inserts are those of the page without its last account, and then that one's.
  lemma LastAdd(w: B.World, page: seq<int>, ids: seq<B.RowId>, blocked: set<int>, now: int)
    requires |ids| == |page| > 0 && Unused(w, ids)
    ensures Unused(w, ids[..|page| - 1])
    ensures var n := |page| - 1;
      var (earlier, step) := (Added(w, page[..n], ids[..n], blocked, now), B.Add(page[n], ids[n], page[n] in blocked));
      B.Can(earlier, step) && Added(w, page, ids, blocked, now) == B.Do(earlier, step, now)
  {
    hide B.Do;
    assert forall i :: 0 <= i < |page| - 1 ==> ids[..|page| - 1][i] == ids[i];
  }

  lemma {:induction false} PageAgrees(w: B.World, rows: E.Ledger, page: seq<int>, ids: seq<B.RowId>, blocked: set<int>,
                                      now: int)
    requires |ids| == |page| && Unused(w, ids) && A.AccountInv(w)
    requires forall u: int :: B.Named(w.rows, u) <==> u in rows
    ensures var (after, inserted) := (Added(w, page, ids, blocked, now), E.Inserted(rows, page, blocked));
      && A.AccountInv(after) && (forall u: int :: B.Named(after.rows, u) <==> u in inserted)
      && |after.rows| - |w.rows| == |inserted| - |rows|
  {
    hide A.AccountInv, B.Named, B.Do, B.Can, Unused;
    if page != [] {
      var n := |page| - 1;
      LastAdd(w, page, ids, blocked, now);
      PageAgrees(w, rows, page[..n], ids[..n], blocked, now);
      AddAgrees(Added(w, page[..n], ids[..n], blocked, now), page[n], ids[n], page[n] in blocked, now);
      OneMoreAccount(E.Inserted(rows, page[..n], blocked), page[n], page[n] in blocked);
    }
  }

  // The same, for one account: whether it is named afterwards, and whether it got a row.
  lemma {:induction false} PageOwns(w: B.World, rows: E.Ledger, page: seq<int>, ids: seq<B.RowId>, blocked: set<int>, now: int,
                                    v: int)
    requires |ids| == |page| && Unused(w, ids) && A.AccountInv(w) && (B.Named(w.rows, v) <==> v in rows)
    ensures var after := Added(w, page, ids, blocked, now);
      && A.AccountInv(after) && (B.Named(after.rows, v) <==> v in rows || v in page)
      && |A.RowsOf(after, v)| == |A.RowsOf(w, v)| + if v in page && v !in rows then 1 else 0
  {
    hide A.AccountInv, B.Named, B.Do, B.Can, A.RowsOf, Unused;
    if page != [] {
      var n := |page| - 1;
      LastAdd(w, page, ids, blocked, now);
      PageOwns(w, rows, page[..n], ids[..n], blocked, now, v);
      AddNames(Added(w, page[..n], ids[..n], blocked, now), page[n], ids[n], page[n] in blocked, now, v);
      assert v in page <==> v in page[..n] || v == page[n];
    }
  }

  lemma AddNames(w: B.World, u: int, id: B.RowId, isBlocked: bool, now: int, v: int)
    requires A.AccountInv(w) && B.Can(w, B.Add(u, id, isBlocked))
    ensures var after := B.Do(w, B.Add(u, id, isBlocked), now);
      && A.AccountInv(after) && (B.Named(after.rows, v) <==> B.Named(w.rows, v) || v == u)
      && |A.RowsOf(after, v)| == |A.RowsOf(w, v)| + if v == u && !B.Named(w.rows, v) then 1 else 0
  {
    hide A.AccountInv, B.Named, B.Do, A.RowsOf, B.Can;
    AddAgrees(w, u, id, isBlocked, now);
    A.StepMovesRowsOf(w, B.Add(u, id, isBlocked), now, v);
  }

  lemma OneMoreAccount(rows: E.Ledger, a: int, isBlocked: bool)
    ensures a !in rows ==> |rows[a := isBlocked]| == |rows| + 1
  {
    if a !in rows {
      assert rows[a := isBlocked].Keys == rows.Keys + {a};
      assert |rows| == |rows.Keys| && |rows[a := isBlocked]| == |rows[a := isBlocked].Keys|;
    }
  }

  lemma SendAgrees(w: B.World, step: B.Step, now: int)
    requires A.AccountInv(w) && B.Can(w, step) && !step.Add? && !step.Forget?
    ensures var after := B.Do(w, step, now);
      && A.AccountInv(after) && (forall u: int :: B.Named(after.rows, u) <==> B.Named(w.rows, u))
      && |after.rows| == |w.rows| && forall v: int :: A.RowsOf(after, v) == A.RowsOf(w, v)
  {
    hide B.Do, B.Can, B.Named, A.AccountInv;
    A.SendKeepsColumns(w, step, now);
    A.StepKeepsAccounts(w, step, now);
    SameSize(B.Do(w, step, now).rows, w.rows);
    SameNames(w.rows, B.Do(w, step, now).rows);
  }

  lemma SameNames(a: B.Rows, b: B.Rows)
    requires forall id :: id in b <==> id in a
    requires forall id :: id in a ==> b[id].user == a[id].user
    ensures forall u: int :: B.Named(b, u) <==> B.Named(a, u)
  {
    forall u: int ensures B.Named(b, u) <==> B.Named(a, u) {
      if B.Named(a, u) { var id :| id in a && a[id].user == Some(u); assert id in b && b[id].user == Some(u); }
      if B.Named(b, u) { var id :| id in b && b[id].user == Some(u); assert id in a && a[id].user == Some(u); }
    }
  }

  lemma ForgetAgrees(w: B.World, u: int, now: int)
    requires A.AccountInv(w)
    ensures var after := B.Do(w, B.Forget(u), now);
      && A.AccountInv(after) && (forall v: int :: B.Named(after.rows, v) <==> B.Named(w.rows, v) && v != u)
      && |after.rows| == |w.rows| && forall v: int :: A.RowsOf(after, v) == A.RowsOf(w, v)
  {
    hide B.Do, A.AccountInv;
    var after := B.Do(w, B.Forget(u), now);
    A.ForgetBlanks(w, u, now);
    A.StepKeepsAccounts(w, B.Forget(u), now);
    SameSize(after.rows, w.rows);
    forall v: int ensures B.Named(after.rows, v) <==> B.Named(w.rows, v) && v != u {
      if B.Named(w.rows, v) && v != u {
        var id :| id in w.rows && w.rows[id].user == Some(v);
        assert id in after.rows && after.rows[id].user == Some(v);
      }
    }
    assert after.owners == w.owners;
  }

  /** The page scans an account that was erased and, its row blanked, writes it another. */
  predicate Readds(w: World, step: Step, u: int) {
    step.Page? && step.page.ExpandFrom? && u in E.Kept(step.page.scanned, step.page.limit)
    && u !in w.plan.campaign.rows && u in w.plan.erased
  }

  // The page writes this account a row.
  predicate Writes(w: World, step: Step, u: int) {
    step.Page? && step.page.ExpandFrom? && u in E.Kept(step.page.scanned, step.page.limit) && u !in w.plan.campaign.rows
  }

  lemma StepKeepsLink(w: World, step: Step, now: int)
    requires Linked(w) && Can(w, step)
    ensures Linked(Do(w, step, now))
    ensures forall u: int ::
      |A.RowsOf(Do(w, step, now).ledger, u)| == |A.RowsOf(w.ledger, u)| + if Writes(w, step, u) then 1 else 0
  {
    hide A.AccountInv, B.Named, A.RowsOf, B.Do, B.Can, E.Erased;
    match step
    case Page(s, ids) => PageKeepsLink(w, s, ids, now);
    case Erase(u) =>
      ForgetAgrees(w.ledger, u, now);
      E.ErasureKeepsSize(w.plan.campaign, u);
    case Send(s) => SendAgrees(w.ledger, s, now);
    case Plan(_) =>
    case RollUp =>
  }

  lemma PageKeepsLink(w: World, s: E.Step, ids: seq<B.RowId>, now: int)
    requires Linked(w) && Can(w, Page(s, ids))
    ensures Linked(Do(w, Page(s, ids), now))
    ensures forall u: int :: |A.RowsOf(Do(w, Page(s, ids), now).ledger, u)|
                          == |A.RowsOf(w.ledger, u)| + if Writes(w, Page(s, ids), u) then 1 else 0
  {
    hide A.AccountInv, B.Named, A.RowsOf, B.Do, B.Can, Added, Unused, E.Inserted, E.IsScan, E.Kept;
    var c, kept := w.plan.campaign, E.Kept(s.scanned, s.limit);
    PageAgrees(w.ledger, c.rows, kept, ids, s.blocked, now);
    E.InsertedAddsThePage(c.rows, kept, s.blocked);
    forall u: int
      ensures |A.RowsOf(Added(w.ledger, kept, ids, s.blocked, now), u)|
           == |A.RowsOf(w.ledger, u)| + if u in kept && u !in c.rows then 1 else 0
    {
      PageOwns(w.ledger, c.rows, kept, ids, s.blocked, now, u);
    }
  }

  lemma StartIsLinked()
    ensures Linked(START) && B.Fresh(START.ledger)
  {
    assert forall u: int :: A.RowsOf(START.ledger, u) == {};
  }

  // ---- runs -------------------------------------------------------------------------------------

  datatype Timed = Timed(now: int, step: Step)

  ghost predicate IsRun(states: seq<World>, steps: seq<Timed>) {
    |states| == |steps| + 1 && states[0] == START && forall i :: 0 <= i < |steps| ==>
      Can(states[i], steps[i].step) && states[i + 1] == Do(states[i], steps[i].step, steps[i].now)
  }

  lemma {:induction false} RunKeepsLink(states: seq<World>, steps: seq<Timed>, i: nat)
    requires IsRun(states, steps) && i <= |steps|
    ensures Linked(states[i])
  {
    hide Linked, Do, Can;
    if i == 0 {
      StartIsLinked();
    } else {
      RunKeepsLink(states, steps, i - 1);
      StepKeepsLink(states[i - 1], steps[i - 1].step, steps[i - 1].now);
    }
  }

  /**
   * "The unique column makes a second row for one account impossible", exactly: over every run of a
   * campaign an account has a second row if and only if some page scanned it after it was erased.
   */
  lemma {:induction false} SecondRowIff(states: seq<World>, steps: seq<Timed>, i: nat, u: int)
    requires IsRun(states, steps) && i <= |steps|
    ensures |A.RowsOf(states[i].ledger, u)| >= 2 <==> exists k :: 0 <= k < i && Readds(states[k], steps[k].step, u)
  {
    hide Linked, Do, Can, A.RowsOf, Readds;
    if i == 0 {
      StartIsLinked();
      NobodyAtStart(u);
    } else {
      var w, step := states[i - 1], steps[i - 1].step;
      SecondRowIff(states, steps, i - 1, u);
      RunKeepsLink(states, steps, i - 1);
      StepKeepsLink(w, step, steps[i - 1].now);
      SecondRowStep(w, step, u);
    }
  }

  lemma NobodyAtStart(u: int)
    ensures A.RowsOf(START.ledger, u) == {}
  {
  }

  lemma SecondRowStep(w: World, step: Step, u: int)
    requires Linked(w)
    ensures Readds(w, step, u) <==> Writes(w, step, u) && |A.RowsOf(w.ledger, u)| >= 1
  {
    hide A.RowsOf;
  }

  /** What a roll-up stores is the recount of the ledger, whatever pages and erasures came before. */
  lemma RollUpCountsTheLedger(states: seq<World>, steps: seq<Timed>, i: nat)
    requires IsRun(states, steps) && i < |steps| && steps[i].step.RollUp?
    ensures states[i + 1].plan.campaign.recipientCount == B.CountRows(states[i + 1].ledger.rows).total
  {
    hide Linked, Can, B.InState;
    RunKeepsLink(states, steps, i);
    LinkAgrees(states[i]);
  }

  lemma LinkAgrees(w: World)
    requires Linked(w)
    ensures Agree(w.plan.campaign.rows, w.plan.campaign.Size(), w.ledger)
  {
  }

  // ---- messages -----------------------------------------------------------------------------------

  lemma {:induction false} PageTrace(origin: B.World, trace: seq<B.Timed>, w: B.World, page: seq<int>, ids: seq<B.RowId>,
                                     blocked: set<int>, now: int) returns (more: seq<B.Timed>)
    requires |ids| == |page| && Unused(w, ids) && B.Reached(origin, trace) == Some(w)
    ensures B.Reached(origin, more) == Some(Added(w, page, ids, blocked, now))
  {
    hide B.Do, B.Can, B.Reached, Unused;
    if page == [] {
      more := trace;
    } else {
      var n := |page| - 1;
      LastAdd(w, page, ids, blocked, now);
      more := PageTrace(origin, trace, w, page[..n], ids[..n], blocked, now);
      more := OneStepFurther(origin, more, Added(w, page[..n], ids[..n], blocked, now),
                             B.Add(page[n], ids[n], page[n] in blocked), now);
    }
  }

  lemma OneStepFurther(origin: B.World, trace: seq<B.Timed>, w: B.World, step: B.Step, now: int) returns (more: seq<B.Timed>)
    requires B.Reached(origin, trace) == Some(w) && B.Can(w, step)
    ensures B.Reached(origin, more) == Some(B.Do(w, step, now))
  {
    hide B.Do, B.Can;
    more := trace + [B.Timed(now, step)];
    assert more[..|trace|] == trace;
  }

  /** A campaign's run, seen by its send ledger alone, is a lawful trace from a fresh one. */
  lemma {:induction false} LedgerTrace(states: seq<World>, steps: seq<Timed>, i: nat) returns (trace: seq<B.Timed>)
    requires IsRun(states, steps) && i <= |steps|
    ensures B.Reached(START.ledger, trace) == Some(states[i].ledger)
  {
    hide B.Do, B.Can, B.Reached, Added, E.Can, E.Do;
    if i == 0 {
      trace := [];
      NothingReached();
    } else {
      trace := LedgerTrace(states, steps, i - 1);
      var w, now := states[i - 1].ledger, steps[i - 1].now;
      match steps[i - 1].step
      case Page(s, ids) => trace := PageTrace(START.ledger, trace, w, E.Kept(s.scanned, s.limit), ids, s.blocked, now);
      case Erase(u) =>
        ForgettingIsFree(w, u);
        trace := OneStepFurther(START.ledger, trace, w, B.Forget(u), now);
      case Send(s) => trace := OneStepFurther(START.ledger, trace, w, s, now);
      case _ =>
    }
  }

  lemma NothingReached()
    ensures B.Reached(START.ledger, []) == Some(START.ledger)
  {
  }

  lemma ForgettingIsFree(w: B.World, u: int)
    ensures B.Can(w, B.Forget(u))
  {
  }

  /**
   * Over every run of a campaign an account gets at most one message for each row it has, so one in
   * all unless some page scanned it after it was erased.
   */
  lemma MessagesOverACampaign(states: seq<World>, steps: seq<Timed>, i: nat, u: int) returns (trace: seq<B.Timed>)
    requires IsRun(states, steps) && i <= |steps|
    ensures B.Reached(START.ledger, trace) == Some(states[i].ledger)
    ensures A.Messages(START.ledger, trace, u) == |A.SentTo(states[i].ledger, u)| <= |A.RowsOf(states[i].ledger, u)|
    ensures (forall k :: 0 <= k < i ==> !Readds(states[k], steps[k].step, u)) ==> A.Messages(START.ledger, trace, u) <= 1
  {
    hide Do, Can, Linked, Readds, A.RowsOf, A.SentTo, A.Messages;
    trace := LedgerTrace(states, steps, i);
    StartIsLinked();
    A.OneMessagePerAccount(START.ledger, trace, u);
    SecondRowIff(states, steps, i, u);
  }

  // ---- a customer who asked to be forgotten is messaged twice -----------------------------------------

  // Account 7's page; its row, sent to and then blanked; and the job that sent it. All at instant 0.
  const PAGE := E.ExpandFrom(None, 500, {7}, [7], {})
  const WAITS := B.Recipient(Some(7), B.PENDING, 0, 0, None)
  const CLAIMED := B.Recipient(Some(7), B.SENDING, 1, 0, None)
  const DONE := B.Recipient(Some(7), B.SENT, 1, 0, Some(0))
  const BLANK := DONE.(user := None)
  const IDLE := B.Job(0, {}, {})

  const READY := World(E.World(E.Campaign(E.READY, None, 1, map[7 := false], 0), {None}, {}, false),
                       B.World(map[0 := WAITS], map[], map[], map[0 := 7]))
  const STARTED := READY.plan.(campaign := READY.plan.campaign.(state := E.SENDING_STATE), isStarted := true)
  const ERASED := STARTED.(campaign := STARTED.campaign.(rows := map[], blanks := 1), erased := {7})
  const AGAIN := STARTED.(campaign := STARTED.campaign.(blanks := 1), erased := {7})

  lemma PageIsScanned()
    ensures E.IsScan({7}, None, 500, [7]) && E.Kept([7], 500) == [7] && E.NextCursor([7], 500) == None
    ensures E.Inserted(map[], [7], {}) == map[7 := false]
  {
    E.InsertedAddsThePage(map[], [7], {});
    assert [7][..0] == [];
  }

  lemma AudienceIsWritten() returns (read: World)
    ensures var step := Plan(E.ReadPlan); Can(START, step) && Do(START, step, 0) == read
    ensures var step := Page(PAGE, [0]); Can(read, step) && Do(read, step, 0) == READY
    ensures var step := Plan(E.StateMoves(E.SENDING_STATE)); Can(READY, step) && Do(READY, step, 0) == READY.(plan := STARTED)
  {
    hide E.IsScan, E.Inserted, E.Kept, E.NextCursor;
    PageIsScanned();
    read := Do(START, Plan(E.ReadPlan), 0);
    AddedOne(START.ledger, 0);
    assert |map[7 := false]| == 1;
  }

  lemma AddedOne(w: B.World, id: B.RowId)
    requires id !in w.rows && id !in w.owners && !B.Named(w.rows, 7)
    ensures Unused(w, [id]) && Added(w, [7], [id], {}, 0) == w.(rows := w.rows[id := WAITS], owners := w.owners[id := 7])
  {
    assert [7][..0] == [] && [id][..0] == [];
  }

  // One chunk claims row `id`, and its message leaves.
  lemma RowIsSent(w: B.World, j: B.JobId, id: B.RowId) returns (begun: B.World, held: B.World, sent: B.World)
    requires j !in w.jobs && id in w.rows && w.rows[id] == WAITS && id !in w.sends
    ensures B.Can(w, B.Start(j)) && begun == B.Do(w, B.Start(j), 0)
    ensures B.Can(begun, B.Claim(j, id)) && held == B.Do(begun, B.Claim(j, id), 0)
    ensures B.Can(held, B.Transmit(j, id)) && sent == B.Do(held, B.Transmit(j, id), 0)
    ensures sent == B.World(w.rows[id := CLAIMED], w.jobs[j := B.Job(0, {id}, {id})], w.sends[id := 1], w.owners)
  {
    begun := B.Do(w, B.Start(j), 0);
    held := B.Do(begun, B.Claim(j, id), 0);
    sent := B.Do(held, B.Transmit(j, id), 0);
    assert {} + {id} == {id};
    assert begun.jobs[j := B.Job(0, {id}, {})][j := B.Job(0, {id}, {id})] == w.jobs[j := B.Job(0, {id}, {id})];
  }

  // The ledger after the first message: its row closed, and then blanked.
  const CLOSED := B.World(map[0 := DONE], map[0 := IDLE], map[0 := 1], map[0 := 7])
  const BLANKED := CLOSED.(rows := map[0 := BLANK])
  const LISTED := BLANKED.(rows := map[0 := BLANK, 1 := WAITS], owners := map[0 := 7, 1 := 7])

  lemma FirstIsBlanked(sent: B.World)
    requires sent == B.World(map[0 := CLAIMED], map[0 := B.Job(0, {0}, {0})], map[0 := 1], map[0 := 7])
    ensures B.Can(sent, B.Close(0, 0, B.SENT)) && B.Do(sent, B.Close(0, 0, B.SENT), 0) == CLOSED
    ensures B.Do(CLOSED, B.Forget(7), 0) == BLANKED
  {
    hide B.Named;
    assert {0} - {0} == {};
    assert map[0 := CLAIMED][0 := DONE] == map[0 := DONE];
    assert B.Do(CLOSED, B.Forget(7), 0).rows == map[0 := BLANK];
  }

  lemma PlanForgets()
    ensures E.Do(STARTED, E.Erase(7)) == ERASED
    ensures E.Can(ERASED, PAGE) && E.Do(ERASED, PAGE) == AGAIN
  {
    hide E.IsScan, E.Inserted, E.Kept, E.NextCursor;
    PageIsScanned();
    assert map[7 := false] - {7} == map[];
    assert |map[7 := false]| == 1;
  }

  lemma PageReadds()
    ensures var (w, step) := (World(ERASED, BLANKED), Page(PAGE, [1]));
      Can(w, step) && Do(w, step, 0) == World(AGAIN, LISTED) && Readds(w, step, 7)
  {
    hide E.IsScan, E.Inserted, E.Kept, E.NextCursor, E.Do, E.Can, Added, Unused;
    PlanForgets();
    PageIsScanned();
    AddedOne(BLANKED, 1);
    assert map[0 := BLANK][1 := WAITS] == map[0 := BLANK, 1 := WAITS] && map[0 := 7][1 := 7] == map[0 := 7, 1 := 7];
  }

  /**
   * A customer is messaged and asks to be forgotten; a page whose job read the plan while the
   * audience was still being written runs late, finds no row under that name, and writes another;
   * the next chunk sends to it.
   */
  lemma ForgottenIsMessagedTwice() returns (states: seq<World>, steps: seq<Timed>)
    ensures IsRun(states, steps) && |steps| == 12
    ensures steps[5] == Timed(0, Send(B.Transmit(0, 0))) && steps[7] == Timed(0, Erase(7))
    ensures Readds(states[8], steps[8].step, 7) && steps[11] == Timed(0, Send(B.Transmit(1, 1)))
    ensures A.SentTo(states[12].ledger, 7) == {0, 1}
  {
    hide Can, Do, B.Can, B.Do, E.Can, E.Do, Readds;
    var read := AudienceIsWritten();
    var begun, held, sent := RowIsSent(READY.ledger, 0, 0);
    FirstIsBlanked(sent);
    PlanForgets();
    PageReadds();
    var next, taken, twice := RowIsSent(LISTED, 1, 1);
    steps := [Timed(0, Plan(E.ReadPlan)), Timed(0, Page(PAGE, [0])), Timed(0, Plan(E.StateMoves(E.SENDING_STATE))),
              Timed(0, Send(B.Start(0))), Timed(0, Send(B.Claim(0, 0))), Timed(0, Send(B.Transmit(0, 0))),
              Timed(0, Send(B.Close(0, 0, B.SENT))), Timed(0, Erase(7)), Timed(0, Page(PAGE, [1])),
              Timed(0, Send(B.Start(1))), Timed(0, Send(B.Claim(1, 1))), Timed(0, Send(B.Transmit(1, 1)))];
    states := [START, read, READY, READY.(plan := STARTED), World(STARTED, begun), World(STARTED, held), World(STARTED, sent),
               World(STARTED, CLOSED), World(ERASED, BLANKED), World(AGAIN, LISTED), World(AGAIN, next), World(AGAIN, taken),
               World(AGAIN, twice)];
    SendAlone(STARTED, READY.ledger, B.Start(0));
    SendAlone(STARTED, begun, B.Claim(0, 0));
    SendAlone(STARTED, held, B.Transmit(0, 0));
    SendAlone(STARTED, sent, B.Close(0, 0, B.SENT));
    ErasesBoth(STARTED, CLOSED, 7);
    SendAlone(AGAIN, LISTED, B.Start(1));
    SendAlone(AGAIN, next, B.Claim(1, 1));
    SendAlone(AGAIN, taken, B.Transmit(1, 1));
  }

  // Sending touches only the ledger.
  lemma SendAlone(plan: E.World, w: B.World, s: B.Step)
    requires B.Can(w, s) && !s.Add? && !s.Forget? && plan.campaign.state == E.SENDING_STATE
    ensures Can(World(plan, w), Send(s)) && Do(World(plan, w), Send(s), 0) == World(plan, B.Do(w, s, 0))
  {
  }

  lemma ErasesBoth(plan: E.World, w: B.World, u: int)
    ensures Can(World(plan, w), Erase(u)) && B.Can(w, B.Forget(u))
    ensures Do(World(plan, w), Erase(u), 0) == World(E.Do(plan, E.Erase(u)), B.Do(w, B.Forget(u), 0))
  {
  }
}
