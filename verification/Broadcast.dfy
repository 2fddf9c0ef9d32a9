/**
 * The broadcast send ledger: workers claim rows, send, crash and are replayed, and a lease
 * sweep writes off what they leave behind.
 */
module Broadcast {
  import opened Counting
  import opened Option

  type RowId = nat
  type JobId = nat

  datatype RowState = PENDING | SENDING | SENT | FAILED | SKIPPED_BLOCKED | UNDELIVERABLE | UNKNOWN

  predicate Terminal(s: RowState) { s != PENDING && s != SENDING }

  datatype Recipient = Recipient(user: Option<int>, state: RowState, attempts: nat, updatedAt: int,
                                 settledAt: Option<int>)

  type Rows = map<RowId, Recipient>

  // ---- conditional updates ----------------------------------------------------------------

  function ClaimRow(rows: Rows, id: RowId, at: int): (bool, Rows) {
    if id in rows && rows[id].state == PENDING
    then (true, rows[id := rows[id].(state := SENDING, attempts := rows[id].attempts + 1, updatedAt := at)])
    else (false, rows)
  }

  function SettleRow(rows: Rows, id: RowId, state: RowState, at: int): (bool, Rows) {
    if id in rows && rows[id].state == SENDING
    then (true, rows[id := rows[id].(state := state, settledAt := Some(at), updatedAt := at)])
    else (false, rows)
  }

  function ReleaseRow(rows: Rows, id: RowId, at: int): (bool, Rows) {
    if id in rows && rows[id].state == SENDING
    then (true, rows[id := rows[id].(state := PENDING, updatedAt := at)])
    else (false, rows)
  }

  predicate Abandoned(r: Recipient, olderThan: int) { r.state == SENDING && r.updatedAt < olderThan }

  /** The lease sweep: one bulk update. */
  function AgeRows(rows: Rows, olderThan: int, at: int): Rows {
    map id | id in rows ::
      if Abandoned(rows[id], olderThan) then rows[id].(state := UNKNOWN, settledAt := Some(at), updatedAt := at)
      else rows[id]
  }

  // ---- the world ------------------------------------------------------------------------------

  /** A running chunk: when it started, the rows it still owns, and those whose message may have left. */
  datatype Job = Job(at: int, mine: set<RowId>, out: set<RowId>)

  /**
   * The table, the live jobs, how many messages have left for each row, and the account each row
   * was written for. The last outlives the table's own column, which erasure blanks: a worker that
   * has claimed a row holds the account it read, and its message goes there.
   */
  datatype World = World(rows: Rows, jobs: map<JobId, Job>, sends: map<RowId, nat>, owners: map<RowId, int>)

  function Sends(w: World, id: RowId): nat { if id in w.sends then w.sends[id] else 0 }

  datatype Step =
    | Start(j: JobId)
    | Claim(j: JobId, id: RowId)
    | Transmit(j: JobId, id: RowId)
    | Close(j: JobId, id: RowId, state: RowState)
    | WriteLost(j: JobId, id: RowId)
    | HandBack(j: JobId, id: RowId)
    | Kill(j: JobId)
    | Age(lease: int)
    | Forget(u: int)
    | Add(u: int, id: RowId, isBlocked: bool)

  predicate Owns(w: World, j: JobId, id: RowId) { j in w.jobs && id in w.jobs[j].mine }

  /** What the worker's code lets itself do: send once per claim, hand back only what it never sent. */
  predicate Can(w: World, step: Step) {
    match step
    case Start(j) => j !in w.jobs
    case Claim(j, _) => j in w.jobs
    case Transmit(j, id) => Owns(w, j, id) && id !in w.jobs[j].out
    case Close(j, id, state) => Owns(w, j, id) && Terminal(state) && (state == SENT ==> id in w.jobs[j].out)
    case WriteLost(j, id) => Owns(w, j, id)
    case HandBack(j, id) => Owns(w, j, id) && id !in w.jobs[j].out
    case Kill(j) => j in w.jobs
    case Age(_) => true
    case Forget(_) => true
    // A row's own id is drawn at random: a new one was never drawn before.
    case Add(_, id, _) => id !in w.rows && id !in w.owners
  }

  // Some row names this account.
  predicate Named(rows: Rows, u: int) { exists id :: id in rows && rows[id].user == Some(u) }

  function Dropped(w: World, j: JobId, id: RowId): map<JobId, Job>
    requires j in w.jobs
  {
    w.jobs[j := w.jobs[j].(mine := w.jobs[j].mine - {id}, out := w.jobs[j].out - {id})]
  }

  function Do(w: World, step: Step, now: int): World
    requires Can(w, step)
  {
    match step
    case Start(j) => w.(jobs := w.jobs[j := Job(now, {}, {})])
    case Claim(j, id) =>
      // Stamped with the instant the chunk started, not the instant of the update.
      var (won, rows) := ClaimRow(w.rows, id, w.jobs[j].at);
      if won then w.(rows := rows, jobs := w.jobs[j := w.jobs[j].(mine := w.jobs[j].mine + {id})]) else w
    case Transmit(j, id) =>
      w.(jobs := w.jobs[j := w.jobs[j].(out := w.jobs[j].out + {id})], sends := w.sends[id := Sends(w, id) + 1])
    case Close(j, id, state) => w.(rows := SettleRow(w.rows, id, state, w.jobs[j].at).1, jobs := Dropped(w, j, id))
    case WriteLost(j, id) => w.(jobs := Dropped(w, j, id))
    case HandBack(j, id) => w.(rows := ReleaseRow(w.rows, id, w.jobs[j].at).1, jobs := Dropped(w, j, id))
    case Kill(j) => w.(jobs := w.jobs - {j})
    case Age(lease) => w.(rows := AgeRows(w.rows, now - lease, now))
    case Forget(u) =>
      w.(rows := map id | id in w.rows :: if w.rows[id].user == Some(u) then w.rows[id].(user := None) else w.rows[id])
    // Insert-or-ignore on the account. A blocked account's row is settled the moment it is written.
    case Add(u, id, isBlocked) =>
      if Named(w.rows, u) then w else
        var row := if isBlocked then Recipient(Some(u), SKIPPED_BLOCKED, 0, now, Some(now))
                   else Recipient(Some(u), PENDING, 0, now, None);
        w.(rows := w.rows[id := row], owners := w.owners[id := u])
  }

  // ---- the invariant ------------------------------------------------------------------------------

  ghost predicate RowInv(w: World, id: RowId) {
    && Sends(w, id) <= 1
    && (Sends(w, id) > 0 ==> id in w.rows && w.rows[id].state != PENDING)
    && (id in w.rows && w.rows[id].state == SENT ==> Sends(w, id) == 1)
    && (forall j :: Owns(w, j, id) ==>
          && id in w.rows && w.rows[id].state in {SENDING, UNKNOWN}
          && (id in w.jobs[j].out <==> Sends(w, id) == 1))
    && (forall j, k :: Owns(w, j, id) && Owns(w, k, id) ==> j == k)
  }

  ghost predicate WorldInv(w: World) {
    (forall id: RowId :: RowInv(w, id)) && (forall j :: j in w.jobs ==> w.jobs[j].out <= w.jobs[j].mine)
  }

  /** An audience just written out, one row an account: nothing claimed, nobody running, nothing sent. */
  ghost predicate Fresh(w: World) {
    && (forall id :: id in w.rows ==> w.rows[id].state in {PENDING, SKIPPED_BLOCKED})
    && w.jobs == map[] && w.sends == map[]
    && (forall id :: id in w.owners <==> id in w.rows) && (forall id :: id in w.rows ==> w.rows[id].user == Some(w.owners[id]))
    && (forall id, other :: id in w.rows && other in w.rows && id != other ==> w.rows[id].user != w.rows[other].user)
  }

  lemma FreshHolds(w: World)
    requires Fresh(w)
    ensures WorldInv(w)
  {
  }

  lemma StepKeepsRow(w: World, step: Step, now: int, id: RowId)
    requires WorldInv(w) && Can(w, step)
    ensures RowInv(Do(w, step, now), id)
  {
    hide Named;
    assert RowInv(w, id);
    var after := Do(w, step, now);
    match step
    case Start(_) => assert forall k :: Owns(after, k, id) ==> Owns(w, k, id);
    case Claim(j, other) => assert forall k :: Owns(after, k, id) ==> Owns(w, k, id) || (k == j && id == other);
    case Transmit(_, _) => assert forall k :: Owns(after, k, id) ==> Owns(w, k, id);
    case Close(j, other, _) => assert forall k :: Owns(after, k, id) ==> Owns(w, k, id) && !(k == j && id == other);
    case WriteLost(j, other) => assert forall k :: Owns(after, k, id) ==> Owns(w, k, id) && !(k == j && id == other);
    case HandBack(j, other) => assert forall k :: Owns(after, k, id) ==> Owns(w, k, id) && !(k == j && id == other);
    case Kill(_) => assert forall k :: Owns(after, k, id) ==> Owns(w, k, id);
    case Age(_) => assert forall k :: Owns(after, k, id) ==> Owns(w, k, id);
    case Forget(_) => assert forall k :: Owns(after, k, id) ==> Owns(w, k, id);
    case Add(_, _, _) => assert forall k :: Owns(after, k, id) ==> Owns(w, k, id);
  }

  lemma StepKeeps(w: World, step: Step, now: int)
    requires WorldInv(w) && Can(w, step)
    ensures WorldInv(Do(w, step, now))
  {
    forall id: RowId ensures RowInv(Do(w, step, now), id) {
      StepKeepsRow(w, step, now, id);
    }
    hide RowInv;
  }

  // ---- runs --------------------------------------------------------------------------------------------

  datatype Timed = Timed(now: int, step: Step)

  /** Any schedule of claims, sends, crashes, replays and sweeps, under any clock at all. */
  ghost predicate IsRun(states: seq<World>, steps: seq<Timed>) {
    |states| == |steps| + 1 && forall i :: 0 <= i < |steps| ==>
      Can(states[i], steps[i].step) && states[i + 1] == Do(states[i], steps[i].step, steps[i].now)
  }

  lemma {:induction false} RunKeeps(states: seq<World>, steps: seq<Timed>, i: nat)
    requires IsRun(states, steps) && WorldInv(states[0]) && i <= |steps|
    ensures WorldInv(states[i])
  {
    hide WorldInv, Do;
    if i > 0 {
      RunKeeps(states, steps, i - 1);
      StepKeeps(states[i - 1], steps[i - 1].step, steps[i - 1].now);
    }
  }

  /** No account is messaged twice by one campaign, under any schedule; a row marked sent was sent. */
  lemma NoDoubleSend(states: seq<World>, steps: seq<Timed>, i: nat, id: RowId)
    requires IsRun(states, steps) && WorldInv(states[0]) && i <= |steps|
    ensures Sends(states[i], id) <= 1
    ensures id in states[i].rows && states[i].rows[id].state == SENT ==> Sends(states[i], id) == 1
    ensures id in states[i].rows && states[i].rows[id].state == PENDING ==> Sends(states[i], id) == 0
  {
    RunKeeps(states, steps, i);
    assert RowInv(states[i], id);
  }

  /** Where these steps lead, if the worker's code lets itself take each of them in its turn. */
  ghost function Reached(w: World, steps: seq<Timed>): Option<World> {
    if steps == [] then Some(w) else
      var before, last := Reached(w, steps[..|steps| - 1]), steps[|steps| - 1];
      if before.Some? && Can(before.value, last.step) then Some(Do(before.value, last.step, last.now)) else None
  }

  /** What these steps reach is the end of a run, so everything said of runs is said of it. */
  lemma {:induction false} ReachedByARun(w: World, steps: seq<Timed>) returns (states: seq<World>)
    requires Reached(w, steps).Some?
    ensures IsRun(states, steps) && states[0] == w && states[|steps|] == Reached(w, steps).value
  {
    hide Do, Can;
    if steps == [] {
      states := [w];
    } else {
      var n := |steps| - 1;
      states := ReachedByARun(w, steps[..n]);
      states := states + [Reached(w, steps).value];
      assert forall i :: 0 <= i < n ==> steps[..n][i] == steps[i];
    }
  }

  /** From a fresh campaign: whatever was done to reach this world, nobody was messaged twice on the way. */
  lemma FreshCampaignIsSafe(w: World, steps: seq<Timed>, id: RowId)
    requires Fresh(w) && Reached(w, steps).Some?
    ensures var now := Reached(w, steps).value;
      && WorldInv(now) && Sends(now, id) <= 1
      && (id in now.rows && now.rows[id].state == SENT ==> Sends(now, id) == 1)
      && (id in now.rows && now.rows[id].state == PENDING ==> Sends(now, id) == 0)
  {
    hide WorldInv, Do, Can, Fresh;
    FreshHolds(w);
    var states := ReachedByARun(w, steps);
    RunKeeps(states, steps, |steps|);
    NoDoubleSend(states, steps, |steps|, id);
  }

  // ---- abandoned rows ------------------------------------------------------------------------------------

  ghost predicate Orphaned(w: World, id: RowId) {
    id in w.rows && w.rows[id].state == SENDING && forall j :: j in w.jobs ==> id !in w.jobs[j].mine
  }

  ghost predicate WrittenOff(w: World, id: RowId) {
    id in w.rows && w.rows[id].state == UNKNOWN && forall j :: j in w.jobs ==> id !in w.jobs[j].mine
  }

  lemma OrphanStep(w: World, step: Step, now: int, id: RowId)
    requires WorldInv(w) && Can(w, step) && (Orphaned(w, id) || WrittenOff(w, id))
    ensures var after := Do(w, step, now);
      && (Orphaned(after, id) || WrittenOff(after, id)) && (WrittenOff(w, id) ==> WrittenOff(after, id))
      && Sends(after, id) == Sends(w, id)
  {
    hide WorldInv;
  }

  /** A row that was being sent when its job died only ever becomes unknown, and nothing more is sent for it. */
  lemma {:induction false} AbandonedBecomesUnknown(states: seq<World>, steps: seq<Timed>, i: nat, j: nat, id: RowId)
    requires IsRun(states, steps) && WorldInv(states[0]) && i <= j <= |steps| && Orphaned(states[i], id)
    ensures id in states[j].rows && states[j].rows[id].state in {SENDING, UNKNOWN}
    ensures Orphaned(states[j], id) || WrittenOff(states[j], id)
    ensures Sends(states[j], id) == Sends(states[i], id)
    decreases j
  {
    hide WorldInv, Do;
    if i < j {
      AbandonedBecomesUnknown(states, steps, i, j - 1, id);
      RunKeeps(states, steps, j - 1);
      OrphanStep(states[j - 1], steps[j - 1].step, steps[j - 1].now, id);
    }
  }

  /** Killing a worker orphans exactly the rows it still owned. */
  lemma KillOrphans(w: World, j: JobId, now: int, id: RowId)
    requires WorldInv(w) && Owns(w, j, id) && id in w.rows && w.rows[id].state == SENDING
    ensures Orphaned(Do(w, Kill(j), now), id)
  {
    assert RowInv(w, id);
    assert forall k :: k in w.jobs && k != j ==> !Owns(w, k, id);
  }

  // ---- what a job can rely on while others act --------------------------------------------------------------

  // The running chunk a step belongs to; a sweep and an erasure belong to none.
  function Actor(step: Step): Option<JobId> {
    match step
    case Start(j) => Some(j)
    case Claim(j, _) => Some(j)
    case Transmit(j, _) => Some(j)
    case Close(j, _, _) => Some(j)
    case WriteLost(j, _) => Some(j)
    case HandBack(j, _) => Some(j)
    case Kill(j) => Some(j)
    case Age(_) => None
    case Forget(_) => None
    case Add(_, _, _) => None
  }

  /** Settled so, or written off. */
  predicate Closed(w: World, id: RowId, state: RowState) {
    id in w.rows && Terminal(w.rows[id].state) && w.rows[id].state in {state, UNKNOWN}
  }

  ghost predicate Over(w: World, id: RowId, state: RowState) { Closed(w, id, state) || Orphaned(w, id) }

  /** What no step takes back: a settled row's state, an abandoned row's fate, a message that left. */
  ghost predicate Lasting(a: World, b: World) { forall id, state :: LastsFor(a, b, id, state) }

  ghost predicate LastsFor(a: World, b: World, id: RowId, state: RowState) {
    && (id in a.rows && a.rows[id].state == state && Terminal(state) ==> id in b.rows && b.rows[id].state == state)
    && (Closed(a, id, state) ==> Closed(b, id, state)) && (Over(a, id, state) ==> Over(b, id, state))
    && Sends(a, id) <= Sends(b, id)
  }

  lemma LastsAtRest(w: World)
    ensures Lasting(w, w)
  {
  }

  lemma LastingTransitive(a: World, b: World, c: World)
    requires Lasting(a, b) && Lasting(b, c)
    ensures Lasting(a, c)
  {
    hide Closed, Over;
    forall id, state ensures LastsFor(a, c, id, state) {
      assert LastsFor(a, b, id, state) && LastsFor(b, c, id, state);
    }
  }

  lemma StepLasts(w: World, step: Step, now: int)
    requires WorldInv(w) && Can(w, step)
    ensures Lasting(w, Do(w, step, now))
  {
    forall id, state ensures LastsFor(w, Do(w, step, now), id, state) {
      if Orphaned(w, id) { OrphanStep(w, step, now, id); }
    }
    hide WorldInv;
  }

  /** One step more of a lawful trace. */
  lemma OneStepMore(origin: World, steps: seq<Timed>, w: World, step: Step, now: int)
    requires Fresh(origin) && Reached(origin, steps) == Some(w) && Can(w, step)
    ensures Reached(origin, steps + [Timed(now, step)]) == Some(Do(w, step, now)) && Lasting(w, Do(w, step, now))
  {
    hide Fresh, WorldInv, Do, Can, Lasting;
    FreshCampaignIsSafe(origin, steps, 0);
    StepLasts(w, step, now);
    assert (steps + [Timed(now, step)])[..|steps|] == steps;
  }

  /** A row its job stops owning is settled, or nobody's. */
  lemma LettingGoEndsIt(w: World, j: JobId, id: RowId, state: RowState, now: int)
    requires WorldInv(w) && Owns(w, j, id) && Terminal(state)
    ensures Can(w, Close(j, id, state)) ==> Closed(Do(w, Close(j, id, state), now), id, state)
    ensures Over(Do(w, WriteLost(j, id), now), id, state)
  {
    assert RowInv(w, id);
    assert forall k :: k in w.jobs && k != j ==> !Owns(w, k, id);
    hide WorldInv;
  }

  lemma PendingIsUnowned(w: World, j: JobId, id: RowId)
    requires WorldInv(w) && id in w.rows && w.rows[id].state == PENDING
    ensures !Owns(w, j, id)
  {
    assert RowInv(w, id);
  }

  lemma OthersLeaveAJob(w: World, step: Step, now: int, j: JobId)
    requires Can(w, step) && j in w.jobs && Actor(step) != Some(j)
    ensures j in Do(w, step, now).jobs && Do(w, step, now).jobs[j] == w.jobs[j]
  {
  }

  predicate IsSending(w: World, id: RowId) { id in w.rows && w.rows[id].state == SENDING }

  /** Only a lease sweep takes a claimed row away from the job that claimed it. */
  lemma OthersLeaveSending(w: World, step: Step, now: int, j: JobId)
    requires WorldInv(w) && Can(w, step) && j in w.jobs && Actor(step) != Some(j) && !step.Age?
    ensures forall id :: id in w.jobs[j].mine && IsSending(w, id) ==> IsSending(Do(w, step, now), id)
  {
    forall id | id in w.jobs[j].mine && IsSending(w, id) ensures IsSending(Do(w, step, now), id) {
      assert RowInv(w, id) && Owns(w, j, id);
    }
    hide WorldInv;
  }

  /**
   * What the steps that touch the table write. A claim takes a pending row into sending with one attempt
   * more; a close leaves a sending row in exactly the state it was given, and a hand-back leaves it
   * pending; each is stamped with its chunk's start, and each does nothing to a row in any other state. A
   * lease sweep makes exactly the sending rows last stamped before its lease unknown, and an erasure takes
   * the account off its rows. No other row moves.
   */
  lemma StepsAreExact(w: World, step: Step, now: int, id: RowId)
    requires Can(w, step) && id in w.rows
    ensures var row := w.rows[id];
      && id in Do(w, step, now).rows
      && var after := Do(w, step, now).rows[id];
         if step.Claim? && step.id == id && row.state == PENDING then
           after == row.(state := SENDING, attempts := row.attempts + 1, updatedAt := w.jobs[step.j].at)
         else if step.Close? && step.id == id && row.state == SENDING then
           after == row.(state := step.state, settledAt := Some(w.jobs[step.j].at), updatedAt := w.jobs[step.j].at)
         else if step.HandBack? && step.id == id && row.state == SENDING then
           after == row.(state := PENDING, updatedAt := w.jobs[step.j].at)
         else if step.Age? && row.state == SENDING && row.updatedAt + step.lease < now then
           after == row.(state := UNKNOWN, settledAt := Some(now), updatedAt := now)
         else if step.Forget? && row.user == Some(step.u) then after == row.(user := None)
         else after == row
  {
    hide Named;
  }

  /** A late page writes one row for an account no row names: pending, or skipped at once if it blocked the bot. */
  lemma LateRowIsExact(w: World, u: int, id: RowId, isBlocked: bool, now: int)
    requires Can(w, Add(u, id, isBlocked))
    ensures var after := Do(w, Add(u, id, isBlocked), now);
      if exists other :: other in w.rows && w.rows[other].user == Some(u) then after == w
      else
        && id !in w.rows && after.owners == w.owners[id := u] && after.jobs == w.jobs && after.sends == w.sends
        && after.rows == w.rows[id := if isBlocked then Recipient(Some(u), SKIPPED_BLOCKED, 0, now, Some(now))
                                      else Recipient(Some(u), PENDING, 0, now, None)]
  {
  }

  // ---- the lease -----------------------------------------------------------------------------------------------

  // A live job's rows carry its start, and the queue cancels it at the chunk timeout.
  ghost predicate Leased(w: World, now: int, timeout: int) {
    && (forall j :: j in w.jobs ==> w.jobs[j].at <= now <= w.jobs[j].at + timeout)
    && (forall j, id :: Owns(w, j, id) ==>
          id in w.rows && w.rows[id].state == SENDING && w.rows[id].updatedAt == w.jobs[j].at)
  }

  ghost predicate InTime(w: World, now: int, timeout: int) {
    forall j :: j in w.jobs ==> w.jobs[j].at <= now <= w.jobs[j].at + timeout
  }

  lemma LeaseStep(w: World, step: Step, clock: int, now: int, timeout: int, lease: int)
    requires WorldInv(w) && Can(w, step) && Leased(w, clock, timeout) && clock <= now && InTime(w, now, timeout)
    requires 0 <= timeout <= lease && (step.Age? ==> step.lease == lease)
    ensures Leased(Do(w, step, now), now, timeout)
  {
    var after := Do(w, step, now);
    forall j, id | Owns(after, j, id)
      ensures id in after.rows && after.rows[id].state == SENDING && after.rows[id].updatedAt == after.jobs[j].at
    {
      assert RowInv(w, id);
      if Owns(w, j, id) { assert w.rows[id].state == SENDING && w.rows[id].updatedAt == w.jobs[j].at; }
    }
    hide WorldInv;
  }

  function Clock(steps: seq<Timed>, start: int, i: nat): int
    requires i <= |steps|
  {
    if i == 0 then start else steps[i - 1].now
  }

  /**
   * With a lease no shorter than the chunk timeout no sweep writes off a row that a live
   * chunk owns: at every moment of every such run a claimed row is still `sending`.
   */
  lemma {:induction false} LiveRowsAreNotAged(states: seq<World>, steps: seq<Timed>, start: int,
                                              timeout: int, lease: int, i: nat)
    requires IsRun(states, steps) && WorldInv(states[0]) && i <= |steps| && 0 <= timeout <= lease
    requires Leased(states[0], start, timeout)
    requires forall k :: 0 <= k < |steps| ==>
      && Clock(steps, start, k) <= steps[k].now
      && InTime(states[k], steps[k].now, timeout) && (steps[k].step.Age? ==> steps[k].step.lease == lease)
    ensures Leased(states[i], Clock(steps, start, i), timeout)
  {
    hide WorldInv, Do, InTime, Leased;
    if i > 0 {
      LiveRowsAreNotAged(states, steps, start, timeout, lease, i - 1);
      RunKeeps(states, steps, i - 1);
      LeaseStep(states[i - 1], steps[i - 1].step, Clock(steps, start, i - 1), steps[i - 1].now, timeout, lease);
    }
  }

  // One row for account 7, and how a chunk started at instant 0 holds it.
  function OneRow(row: Recipient, job: Job, sends: map<RowId, nat>): World {
    World(map[3 := row], map[0 := job], sends, map[3 := 7])
  }

  const FIRST := Recipient(Some(7), PENDING, 0, 0, None)
  const ONE_FRESH := World(map[3 := FIRST], map[], map[], map[3 := 7])

  function Claimed(): World { OneRow(FIRST.(state := SENDING, attempts := 1), Job(0, {3}, {}), map[]) }

  function WrittenOffRow(at: int): Recipient { Recipient(Some(7), UNKNOWN, 1, at, Some(at)) }

  lemma OneRowIsClaimed()
    ensures var idle := OneRow(FIRST, Job(0, {}, {}), map[]);
      && Can(ONE_FRESH, Start(0)) && Do(ONE_FRESH, Start(0), 0) == idle
      && Can(idle, Claim(0, 3)) && Do(idle, Claim(0, 3), 0) == Claimed()
  {
    assert {} + {3} == {3};
    assert map[3 := FIRST][3 := FIRST.(state := SENDING, attempts := 1)] == map[3 := FIRST.(state := SENDING, attempts := 1)];
  }

  lemma OneRowIsWrittenOff(lease: int)
    requires lease >= 0
    ensures var row := WrittenOffRow(lease + 1);
      && Can(Claimed(), Age(lease)) && Do(Claimed(), Age(lease), lease + 1) == OneRow(row, Job(0, {3}, {}), map[])
      && var lost := OneRow(row, Job(0, {3}, {}), map[]);
         Can(lost, Transmit(0, 3)) && Do(lost, Transmit(0, 3), lease + 1) == OneRow(row, Job(0, {3}, {3}), map[3 := 1])
  {
    assert AgeRows(Claimed().rows, 1, lease + 1) == map[3 := WrittenOffRow(lease + 1)];
    assert {} + {3} == {3};
  }

  /**
   * And with a shorter lease one can: the condition is exact. A chunk claims a row; the sweep writes
   * it off inside the chunk's own timeout; and the chunk sends it after all.
   */
  lemma ShortLeaseWritesOffLiveRows(timeout: int, lease: int) returns (states: seq<World>, steps: seq<Timed>)
    requires 0 <= lease < timeout
    ensures IsRun(states, steps) && |steps| == 4 && Fresh(states[0]) && Leased(states[0], 0, timeout)
    ensures forall k :: 0 <= k < 4 ==>
      && Clock(steps, 0, k) <= steps[k].now
      && InTime(states[k], steps[k].now, timeout) && (steps[k].step.Age? ==> steps[k].step.lease == lease)
    ensures Owns(states[3], 0, 3) && 3 in states[3].rows && states[3].rows[3].state == UNKNOWN
    ensures 3 in states[4].rows && states[4].rows[3].state == UNKNOWN && Sends(states[4], 3) == 1
  {
    hide Do, Can;
    OneRowIsClaimed();
    OneRowIsWrittenOff(lease);
    steps := [Timed(0, Start(0)), Timed(0, Claim(0, 3)), Timed(lease + 1, Age(lease)), Timed(lease + 1, Transmit(0, 3))];
    states := [ONE_FRESH, OneRow(FIRST, Job(0, {}, {}), map[]), Claimed(),
               OneRow(WrittenOffRow(lease + 1), Job(0, {3}, {}), map[]),
               OneRow(WrittenOffRow(lease + 1), Job(0, {3}, {3}), map[3 := 1])];
  }

  // ---- the tally -------------------------------------------------------------------------------------------------

  function InState(rows: Rows, s: RowState): set<RowId> {
    set id | id in rows && rows[id].state == s
  }

  datatype Tally = Tally(total: nat, pending: nat, sending: nat, sent: nat, failed: nat, skipped: nat,
                         undeliverable: nat, unknown: nat)
  {
    function Outstanding(): nat { pending + sending }
  }

  function CountRows(rows: Rows): Tally {
    Tally(|rows|, |InState(rows, PENDING)|, |InState(rows, SENDING)|, |InState(rows, SENT)|, |InState(rows, FAILED)|,
          |InState(rows, SKIPPED_BLOCKED)|, |InState(rows, UNDELIVERABLE)|, |InState(rows, UNKNOWN)|)
  }

  /** The seven counts partition the rows; nothing is outstanding exactly when every row is settled. */
  lemma TallyPartitions(rows: Rows)
    ensures var t := CountRows(rows);
      && t.total == t.pending + t.sending + t.sent + t.failed + t.skipped + t.undeliverable + t.unknown
      && (t.Outstanding() == 0 <==> forall id :: id in rows ==> Terminal(rows[id].state))
  {
    hide InState;
    var p, s, ok, f := InState(rows, PENDING), InState(rows, SENDING), InState(rows, SENT), InState(rows, FAILED);
    var b, d, u := InState(rows, SKIPPED_BLOCKED), InState(rows, UNDELIVERABLE), InState(rows, UNKNOWN);
    StatesCover(rows);
    AddSizes(p, s);
    AddSizes(p + s, ok);
    AddSizes(p + s + ok, f);
    AddSizes(p + s + ok + f, b);
    AddSizes(p + s + ok + f + b, d);
    AddSizes(p + s + ok + f + b + d, u);
    MapSize(rows);
    NothingIn(rows, PENDING);
    NothingIn(rows, SENDING);
  }

  lemma StatesCover(rows: Rows)
    ensures var (p, s) := (InState(rows, PENDING), InState(rows, SENDING));
      var (ok, f) := (InState(rows, SENT), InState(rows, FAILED));
      var (b, d, u) := (InState(rows, SKIPPED_BLOCKED), InState(rows, UNDELIVERABLE), InState(rows, UNKNOWN));
      && rows.Keys == p + s + ok + f + b + d + u
      && p !! s && p + s !! ok && p + s + ok !! f && p + s + ok + f !! b && p + s + ok + f + b !! d
      && p + s + ok + f + b + d !! u
  {
  }

  lemma MapSize(rows: Rows)
    ensures |rows| == |rows.Keys|
  {
  }

  lemma NothingIn(rows: Rows, s: RowState)
    ensures |InState(rows, s)| == 0 <==> forall id :: id in rows ==> rows[id].state != s
  {
    assert forall id :: id in rows && rows[id].state == s ==> id in InState(rows, s);
  }

  function Messaged(w: World): set<RowId> {
    set id | id in w.rows && Sends(w, id) > 0
  }

  /** The number reported as sent never exceeds the messages that left, nor those the claimed rows. */
  lemma SentIsHonest(w: World)
    requires WorldInv(w)
    ensures CountRows(w.rows).sent <= |Messaged(w)| <= CountRows(w.rows).total - CountRows(w.rows).pending
  {
    var sent, pending := InState(w.rows, SENT), InState(w.rows, PENDING);
    forall id | id in sent ensures id in Messaged(w) { assert RowInv(w, id); }
    forall id | id in Messaged(w) ensures id in w.rows.Keys - pending { assert RowInv(w, id); }
    SubsetSize(sent, Messaged(w));
    SubsetSize(Messaged(w), w.rows.Keys - pending);
    assert w.rows.Keys == pending + (w.rows.Keys - pending);
    assert |w.rows| == |w.rows.Keys|;
  }
}
