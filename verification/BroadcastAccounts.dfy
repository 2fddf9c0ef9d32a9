/**
 * The send ledger, account by account: one row each while the account's own name stands on it,
 * and what becomes of that when erasure takes the name off and the audience is written again.
 */
module BroadcastAccounts {
  import opened Counting
  import opened Option
  import opened Broadcast

  /** The rows ever written for an account, whatever their column says now. */
  function RowsOf(w: World, u: int): set<RowId> { OwnedBy(w.owners, u) }

  function OwnedBy(owners: map<RowId, int>, u: int): set<RowId> {
    set id | id in owners && owners[id] == u
  }

  function SentTo(w: World, u: int): set<RowId> {
    set id | id in RowsOf(w, u) && Sends(w, id) > 0
  }

  predicate Reaches(w: World, step: Step, u: int) {
    step.Transmit? && step.id in w.owners && w.owners[step.id] == u
  }

  /** The insert writes a second row for an account whose first no longer names it. */
  predicate Readmits(w: World, step: Step, u: int) {
    step.Add? && step.u == u && !Named(w.rows, u) && RowsOf(w, u) != {}
  }

  /** How many messages these steps sent to an account. */
  ghost function Messages(w: World, steps: seq<Timed>, u: int): nat {
    if steps == [] then 0 else
      var n := |steps| - 1;
      var before := Reached(w, steps[..n]);
      Messages(w, steps[..n], u) + (if before.Some? && Reaches(before.value, steps[n].step, u) then 1 else 0)
  }

  /** How often they wrote an account another row. */
  ghost function Readmissions(w: World, steps: seq<Timed>, u: int): nat {
    if steps == [] then 0 else
      var n := |steps| - 1;
      var before := Reached(w, steps[..n]);
      Readmissions(w, steps[..n], u) + (if before.Some? && Readmits(before.value, steps[n].step, u) then 1 else 0)
  }

  /** How often the account asked to be forgotten. */
  function Erasures(steps: seq<Timed>, u: int): nat {
    if steps == [] then 0 else
      var n := |steps| - 1;
      Erasures(steps[..n], u) + (if steps[n].step == Forget(u) then 1 else 0)
  }

  // A row names the account it was written for or nobody, and no two rows name one account.
  ghost predicate AccountInv(w: World) {
    && (forall id :: id in w.owners <==> id in w.rows)
    && (forall id :: id in w.rows ==> w.rows[id].user in {None, Some(w.owners[id])})
    && (forall id, other :: id in w.rows && other in w.rows && id != other && w.rows[id].user.Some? ==>
          w.rows[id].user != w.rows[other].user)
  }

  // Sending leaves the rows where they are, and whose they are.
  ghost predicate SameColumns(a: World, b: World) {
    && b.owners == a.owners && (forall id :: id in b.rows <==> id in a.rows)
    && forall id :: id in a.rows ==> b.rows[id].user == a.rows[id].user
  }

  lemma SendKeepsColumns(w: World, step: Step, now: int)
    requires Can(w, step) && !step.Add? && !step.Forget?
    ensures SameColumns(w, Do(w, step, now))
  {
  }

  lemma OnlyTransmitSends(w: World, step: Step, now: int)
    requires Can(w, step) && !step.Transmit?
    ensures Do(w, step, now).sends == w.sends
  {
    hide Named;
  }

  // What an insert adds, and what erasure takes off.
  lemma AddWritesOne(w: World, u: int, id: RowId, isBlocked: bool, now: int)
    requires Can(w, Add(u, id, isBlocked))
    ensures var after := Do(w, Add(u, id, isBlocked), now);
      if Named(w.rows, u) then after == w
      else after.owners == w.owners[id := u] && id in after.rows && after.rows[id].user == Some(u)
           && after.rows == w.rows[id := after.rows[id]]
  {
    hide Named;
  }

  lemma ForgetBlanks(w: World, u: int, now: int)
    ensures Can(w, Forget(u))
    ensures var after := Do(w, Forget(u), now);
      && after.owners == w.owners && (forall id :: id in after.rows <==> id in w.rows)
      && forall id :: id in w.rows ==> after.rows[id].user == if w.rows[id].user == Some(u) then None else w.rows[id].user
  {
  }

  lemma StepKeepsAccounts(w: World, step: Step, now: int)
    requires AccountInv(w) && Can(w, step)
    ensures AccountInv(Do(w, step, now))
    ensures forall id :: id in w.owners ==> id in Do(w, step, now).owners && Do(w, step, now).owners[id] == w.owners[id]
  {
    hide Do;
    match step
    case Add(u, id, isBlocked) =>
      AddWritesOne(w, u, id, isBlocked, now);
      if !Named(w.rows, u) { assert forall other :: other in w.rows ==> w.rows[other].user != Some(u); }
    case Forget(u) => ForgetBlanks(w, u, now);
    case _ => SendKeepsColumns(w, step, now);
  }

  lemma OneMoreOwned(owners: map<RowId, int>, id: RowId, v: int, u: int)
    requires id !in owners
    ensures OwnedBy(owners[id := v], u) == if v == u then OwnedBy(owners, u) + {id} else OwnedBy(owners, u)
    ensures |OwnedBy(owners[id := v], u)| == |OwnedBy(owners, u)| + if v == u then 1 else 0
  {
    var after := owners[id := v];
    assert forall k :: k in OwnedBy(after, u) <==> k in OwnedBy(owners, u) || (k == id && v == u);
  }

  lemma StepMovesRowsOf(w: World, step: Step, now: int, u: int)
    requires AccountInv(w) && Can(w, step)
    ensures |RowsOf(Do(w, step, now), u)| == |RowsOf(w, u)| + if step.Add? && step.u == u && !Named(w.rows, u) then 1 else 0
  {
    hide Named, Do, OwnedBy, AccountInv;
    match step
    case Add(v, id, isBlocked) =>
      AddWritesOne(w, v, id, isBlocked, now);
      OneMoreOwned(w.owners, id, v, u);
    case Forget(v) => ForgetBlanks(w, v, now);
    case _ => SendKeepsColumns(w, step, now);
  }

  lemma StepMovesSentTo(w: World, step: Step, now: int, u: int)
    requires WorldInv(w) && AccountInv(w) && Can(w, step)
    ensures |SentTo(Do(w, step, now), u)| == |SentTo(w, u)| + if Reaches(w, step, u) then 1 else 0
  {
    hide Named, WorldInv, AccountInv, Do, OwnedBy;
    var after := Do(w, step, now);
    if step.Transmit? {
      NotYetSent(w, step.j, step.id);
      TransmitCounts(w, step, now, u);
    } else {
      OnlyTransmitSends(w, step, now);
      match step {
        case Add(v, id, isBlocked) =>
          AddWritesOne(w, v, id, isBlocked, now);
          OneMoreOwned(w.owners, id, v, u);
          UnsentIfNew(w, id);
        case Forget(v) => ForgetBlanks(w, v, now);
        case _ => SendKeepsColumns(w, step, now);
      }
      assert SentTo(after, u) == SentTo(w, u);
    }
  }

  lemma NotYetSent(w: World, j: JobId, id: RowId)
    requires WorldInv(w) && Owns(w, j, id) && id !in w.jobs[j].out
    ensures Sends(w, id) == 0
  {
    assert RowInv(w, id);
  }

  lemma UnsentIfNew(w: World, id: RowId)
    requires WorldInv(w) && id !in w.rows
    ensures Sends(w, id) == 0
  {
    assert RowInv(w, id);
  }

  lemma TransmitCounts(w: World, step: Step, now: int, u: int)
    requires Can(w, step) && step.Transmit? && Sends(w, step.id) == 0
    ensures |SentTo(Do(w, step, now), u)| == |SentTo(w, u)| + if Reaches(w, step, u) then 1 else 0
  {
    var after := Do(w, step, now);
    assert after.owners == w.owners;
    assert forall k :: k in SentTo(after, u) <==> k in SentTo(w, u) || (k == step.id && Reaches(w, step, u));
    assert SentTo(after, u) == if Reaches(w, step, u) then SentTo(w, u) + {step.id} else SentTo(w, u);
  }

  lemma StepMovesNames(w: World, step: Step, now: int, u: int)
    requires AccountInv(w) && Can(w, step)
    ensures var after := Do(w, step, now);
      && (step.Add? && step.u == u ==> Named(after.rows, u))
      && (step != Forget(u) && Named(w.rows, u) ==> Named(after.rows, u))
  {
    hide Do;
    var after := Do(w, step, now);
    match step {
      case Add(v, id, isBlocked) => AddWritesOne(w, v, id, isBlocked, now);
      case Forget(v) => ForgetBlanks(w, v, now);
      case _ => SendKeepsColumns(w, step, now);
    }
    if step != Forget(u) && Named(w.rows, u) {
      var id :| id in w.rows && w.rows[id].user == Some(u);
      assert id in after.rows && after.rows[id].user == Some(u);
    }
  }

  lemma FreshAccounts(w: World, u: int)
    requires Fresh(w)
    ensures AccountInv(w) && |RowsOf(w, u)| <= 1 && SentTo(w, u) == {} && (RowsOf(w, u) != {} ==> Named(w.rows, u))
  {
    if RowsOf(w, u) != {} {
      var id :| id in RowsOf(w, u);
      assert w.rows[id].user == Some(u);
      assert forall other :: other in RowsOf(w, u) ==> w.rows[other].user == Some(u);
      assert RowsOf(w, u) == {id};
    }
  }

  // What the three counts come to after any lawful trace.
  ghost predicate Counts(origin: World, steps: seq<Timed>, w: World, u: int) {
    var rows, extra := |RowsOf(w, u)|, Readmissions(origin, steps, u);
    && Messages(origin, steps, u) == |SentTo(w, u)|
    && rows == (if RowsOf(w, u) == {} then 0 else 1 + extra) && (RowsOf(w, u) == {} ==> extra == 0)
    && extra <= Erasures(steps, u)
    && (RowsOf(w, u) != {} && !Named(w.rows, u) ==> extra + 1 <= Erasures(steps, u))
  }

  lemma {:induction false} CountsHold(origin: World, steps: seq<Timed>, u: int)
    requires Fresh(origin) && Reached(origin, steps).Some?
    ensures AccountInv(Reached(origin, steps).value) && Counts(origin, steps, Reached(origin, steps).value, u)
    ensures forall id :: id in origin.owners ==>
      id in Reached(origin, steps).value.owners && Reached(origin, steps).value.owners[id] == origin.owners[id]
  {
    hide Fresh, Do, Can, WorldInv, AccountInv, Named, RowsOf, SentTo;
    FreshAccounts(origin, u);
    if steps != [] {
      var n := |steps| - 1;
      var w, last := Reached(origin, steps[..n]).value, steps[n];
      CountsHold(origin, steps[..n], u);
      FreshCampaignIsSafe(origin, steps[..n], 0);
      StepKeepsAccounts(w, last.step, last.now);
      StepMovesRowsOf(w, last.step, last.now, u);
      StepMovesSentTo(w, last.step, last.now, u);
      StepMovesNames(w, last.step, last.now, u);
      if Named(w.rows, u) { NamedHasRow(w, u); }
    } else {
      OneOrNone(RowsOf(origin, u));
    }
  }

  lemma NamedHasRow(w: World, u: int)
    requires AccountInv(w) && Named(w.rows, u)
    ensures RowsOf(w, u) != {}
  {
    var id :| id in w.rows && w.rows[id].user == Some(u);
    assert id in RowsOf(w, u);
  }

  lemma OneOrNone(s: set<RowId>)
    requires |s| <= 1
    ensures |s| == if s == {} then 0 else 1
  {
  }

  /**
   * The campaign's promise, account by account. From a fresh campaign, over every lawful trace, an
   * account gets one message at most for the row it started with, and one more at most for each
   * time it was erased and then written again; it has a second row if and only if some insert found
   * its first one blanked.
   */
  lemma OneMessagePerAccount(origin: World, steps: seq<Timed>, u: int)
    requires Fresh(origin) && Reached(origin, steps).Some?
    ensures var w := Reached(origin, steps).value;
      && |SentTo(w, u) * origin.rows.Keys| <= 1
      && Messages(origin, steps, u) == |SentTo(w, u)| <= |RowsOf(w, u)| <= 1 + Readmissions(origin, steps, u)
      && (|RowsOf(w, u)| >= 2 <==> Readmissions(origin, steps, u) >= 1)
      && Readmissions(origin, steps, u) <= Erasures(steps, u)
  {
    hide WorldInv, AccountInv, Do, Can;
    CountsHold(origin, steps, u);
    var w := Reached(origin, steps).value;
    SubsetSize(SentTo(w, u), RowsOf(w, u));
    FreshAccounts(origin, u);
    SubsetSize(SentTo(w, u) * origin.rows.Keys, RowsOf(origin, u));
  }

  /** So an account that never asks to be forgotten is messaged once at most. */
  lemma UnforgottenGetOne(origin: World, steps: seq<Timed>, u: int)
    requires Fresh(origin) && Reached(origin, steps).Some? && forall i :: 0 <= i < |steps| ==> steps[i].step != Forget(u)
    ensures Messages(origin, steps, u) <= 1
  {
    OneMessagePerAccount(origin, steps, u);
    NobodyErased(steps, u);
  }

  lemma {:induction false} NobodyErased(steps: seq<Timed>, u: int)
    requires forall i :: 0 <= i < |steps| ==> steps[i].step != Forget(u)
    ensures Erasures(steps, u) == 0
  {
    if steps != [] { NobodyErased(steps[..|steps| - 1], u); }
  }
}
