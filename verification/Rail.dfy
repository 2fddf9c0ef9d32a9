/**
 * The redirect payment rail: payment intents, the rail's own transactions, and every call
 * that moves them. One function is one database transaction; a sale it decides to write is
 * returned beside the new rows and carried out, in the same commit, by Settlement.
 */
module Rail {
  import opened Option
  import opened Keys
  import opened Periods
  import opened Ledger

  type Ref = string
  type TxId = string

  datatype IntentState = PENDING | AWAITING | PAID | INTENT_CANCELLED | EXPIRED

  datatype Note = RailNote | OperatorNote(text: string)

  /** One opened payment. Its row identity is its public reference. */
  datatype Intent = Intent(key: Key, user: Option<User>, product: Product, amount: int,
                           songs: Option<int>, days: Option<int>, merchant: string,
                           state: IntentState, active: Option<TxId>, validUntil: int,
                           settledAt: Option<int>, notifiedAt: Option<int>, note: Option<Note>,
                           resumeOrder: Option<Uuid>, resumedAt: Option<int>, createdAt: int)

  datatype TxState = CREATED | PERFORMED | CANCELLED_TX | CANCELLED_AFTER_PERFORM

  /** The rail's transaction, identified by the rail's own id. */
  datatype Tx = Tx(intent: Ref, paymeTime: int, amount: int, state: TxState, reason: Option<int>,
                   createTime: int, performTime: Option<int>, cancelTime: Option<int>)

  /**
   * The two tables and the unique index on an intent's idempotency key; `minted` is every
   * reference ever drawn, kept so that "random" can mean "never drawn before".
   */
  datatype Rows = Rows(intents: map<Ref, Intent>, index: map<Key, Ref>, txs: map<TxId, Tx>, minted: set<Ref>)

  datatype Config = Config(merchant: string, timeoutMs: nat)

  datatype Refusal =
    | NOT_FOUND | STATE_REFUSAL | DUPLICATE_HOLD | ACCOUNT_UNKNOWN | WRONG_MERCHANT | ACCOUNT_PAID
    | ACCOUNT_CANCELLED | ACCOUNT_EXPIRED | AMOUNT_MISMATCH | ALREADY_DELIVERED | STORAGE_FAULT
    | BUYER_ERASED | NOT_OPEN

  datatype Reply<+T> = Answer(value: T) | Refused(why: Refusal)

  const TIMEOUT_REASON := 4

  /** What a settlement writes besides the rail's rows. */
  datatype Sale = Sale(user: User, key: Key, purchase: Purchase, songs: Option<int>, days: Option<int>)

  function SaleOf(intent: Intent, user: User, reference: string): Sale {
    Sale(user, intent.key, Purchase(intent.product, intent.amount, reference, true), intent.songs, intent.days)
  }

  // ---- clocks ---------------------------------------------------------------------------

  // Milliseconds, truncated toward zero.
  function ToMs(moment: int): int {
    if moment >= 0 then moment / 1000 else -(-moment / 1000)
  }

  // At exactly the timeout the window is still open.
  predicate IsExpired(paymeTime: int, now: int, timeoutMs: int) {
    ToMs(now) - ToMs(paymeTime) > timeoutMs
  }

  // ---- conditional updates -----------------------------------------------------------------

  function WithIntent(r: Rows, ref: Ref, intent: Intent): Rows { r.(intents := r.intents[ref := intent]) }

  function WithTx(r: Rows, id: TxId, tx: Tx): Rows { r.(txs := r.txs[id := tx]) }

  function HoldIntent(r: Rows, ref: Ref, id: TxId): (bool, Rows) {
    if ref in r.intents && r.intents[ref].state == PENDING
    then (true, WithIntent(r, ref, r.intents[ref].(state := AWAITING, active := Some(id))))
    else (false, r)
  }

  function ReleaseIntent(r: Rows, ref: Ref, id: TxId): (bool, Rows) {
    if ref in r.intents && r.intents[ref].state == AWAITING && r.intents[ref].active == Some(id)
    then (true, WithIntent(r, ref, r.intents[ref].(state := PENDING, active := None)))
    else (false, r)
  }

  function ClaimIntent(r: Rows, ref: Ref, id: TxId, now: int): (bool, Rows) {
    if ref in r.intents && r.intents[ref].state == AWAITING && r.intents[ref].active == Some(id)
    then (true, WithIntent(r, ref, r.intents[ref].(state := PAID, settledAt := Some(now), note := Some(RailNote))))
    else (false, r)
  }

  // Two states and no holder: the operator has no transaction id of ours to match on.
  function ClaimForOperator(r: Rows, ref: Ref, text: string, now: int): (bool, Rows) {
    if ref in r.intents && r.intents[ref].state in {PENDING, AWAITING}
    then (true, WithIntent(r, ref, r.intents[ref].(state := PAID, settledAt := Some(now), note := Some(OperatorNote(text)))))
    else (false, r)
  }

  function ExpireIntent(r: Rows, ref: Ref, now: int): (bool, Rows) {
    if ref in r.intents && r.intents[ref].state == PENDING && r.intents[ref].validUntil <= now
    then (true, WithIntent(r, ref, r.intents[ref].(state := EXPIRED)))
    else (false, r)
  }

  function MarkPerformed(r: Rows, id: TxId, now: int): (bool, Rows) {
    if id in r.txs && r.txs[id].state == CREATED
    then (true, WithTx(r, id, r.txs[id].(state := PERFORMED, performTime := Some(now))))
    else (false, r)
  }

  function MarkCancelled(r: Rows, id: TxId, reason: int, now: int): (bool, Rows) {
    if id in r.txs && r.txs[id].state == CREATED
    then (true, WithTx(r, id, r.txs[id].(state := CANCELLED_TX, reason := Some(reason), cancelTime := Some(now))))
    else (false, r)
  }

  /** Cancel a transaction and give its intent back; both halves conditional. */
  function CancelAndRelease(r: Rows, id: TxId, reason: int, now: int): Rows
    requires id in r.txs
  {
    ReleaseIntent(MarkCancelled(r, id, reason, now).1, r.txs[id].intent, id).1
  }

  function TimeOut(r: Rows, id: TxId, now: int): Rows
    requires id in r.txs
  {
    CancelAndRelease(r, id, TIMEOUT_REASON, now)
  }

  // ---- the bot's side --------------------------------------------------------------------------

  function SaleKey(product: Product, tail: string): Key {
    if product == SINGLE then SingleSale(tail) else PlanSale(tail)
  }

  datatype Opening = Opening(product: Product, tail: string, user: User, amount: int, songs: Option<int>,
                             days: Option<int>, merchant: string, ttl: int, resumeOrder: Option<Uuid>)

  function NewIntent(q: Opening, now: int): Intent {
    Intent(SaleKey(q.product, q.tail), Some(q.user), q.product, q.amount, q.songs, q.days, q.merchant,
           PENDING, None, now + q.ttl * SECOND, None, None, None, q.resumeOrder, None, now)
  }

  /** Insert-or-ignore, then read the winner back. `ref` is the freshly minted reference. */
  function Open(r: Rows, q: Opening, ref: Ref, now: int): (Reply<Ref>, Rows) {
    var key := SaleKey(q.product, q.tail);
    if q.amount < 0 || (q.product == STARTER && (q.songs.None? || q.days.None?)) then (Refused(STORAGE_FAULT), r)
    else if key in r.index then (Answer(r.index[key]), r)
    else if ref in r.intents then (Refused(STORAGE_FAULT), r)
    else (Answer(ref), WithIntent(r, ref, NewIntent(q, now)).(index := r.index[key := ref], minted := r.minted + {ref}))
  }

  // ---- the rail's calls ----------------------------------------------------------------------------

  /** The account ladder shared by the quote and the create. */
  function Payable(r: Rows, ref: Ref, amount: int, now: int, c: Config): Reply<Intent> {
    if ref !in r.intents || r.intents[ref].user.None? then Refused(ACCOUNT_UNKNOWN)
    else
      var i := r.intents[ref];
      if i.merchant != c.merchant then Refused(WRONG_MERCHANT)
      else if i.state == PAID then Refused(ACCOUNT_PAID)
      else if i.state == INTENT_CANCELLED then Refused(ACCOUNT_CANCELLED)
      else if i.state == EXPIRED then Refused(ACCOUNT_EXPIRED)
      else if i.state == AWAITING then Refused(DUPLICATE_HOLD)
      else if i.validUntil <= now then Refused(ACCOUNT_EXPIRED)
      else if i.amount != amount then Refused(AMOUNT_MISMATCH)
      else Answer(i)
  }

  // A transaction is answered together with its intent's reference, so the intent must exist.
  function ViewOf(r: Rows, id: TxId): Reply<Tx>
    requires id in r.txs
  {
    if r.txs[id].intent in r.intents then Answer(r.txs[id]) else Refused(STORAGE_FAULT)
  }

  datatype CreateCall = CreateCall(id: TxId, paymeTime: int, amount: int, ref: Ref)

  function Create(r: Rows, q: CreateCall, now: int, c: Config): (Reply<Tx>, Rows) {
    if q.id in r.txs then
      var tx := r.txs[q.id];
      if tx.state != CREATED then (Refused(STATE_REFUSAL), r)
      else if !IsExpired(tx.paymeTime, now, c.timeoutMs) then (ViewOf(r, q.id), r)
      else (Refused(STATE_REFUSAL), TimeOut(r, q.id, now))
    else
      var payable := Payable(r, q.ref, q.amount, now, c);
      if payable.Refused? then (Refused(payable.why), r)
      else
        var tx := Tx(q.ref, q.paymeTime, q.amount, CREATED, None, now, None, None);
        var (held, after) := HoldIntent(WithTx(r, q.id, tx), q.ref, q.id);
        if held then (Answer(tx), after) else (Refused(DUPLICATE_HOLD), r)
  }

  /** Perform, and the sale it writes when it is the call that settles. */
  function Perform(r: Rows, id: TxId, now: int, c: Config): (Reply<Tx>, Rows, Option<Sale>) {
    if id !in r.txs then (Refused(NOT_FOUND), r, None)
    else
      var tx := r.txs[id];
      if tx.state == PERFORMED then (ViewOf(r, id), r, None)
      else if tx.state != CREATED then (Refused(STATE_REFUSAL), r, None)
      else if IsExpired(tx.paymeTime, now, c.timeoutMs) then (Refused(STATE_REFUSAL), TimeOut(r, id, now), None)
      else Settle(r, id, now, c)
  }

  function Settle(r: Rows, id: TxId, now: int, c: Config): (Reply<Tx>, Rows, Option<Sale>)
    requires id in r.txs && r.txs[id].state == CREATED
  {
    var ref := r.txs[id].intent;
    var flipped := MarkPerformed(r, id, now).1;
    if ref !in r.intents then (Refused(STORAGE_FAULT), r, None)
    else if r.intents[ref].merchant != c.merchant then (Refused(WRONG_MERCHANT), r, None)
    else
      var (claimed, after) := ClaimIntent(flipped, ref, id, now);
      var i := after.intents[ref];
      // The one benign lost claim: an operator paid this intent while we held it.
      if !claimed && !(i.state == PAID && i.active == Some(id)) then (Refused(STATE_REFUSAL), r, None)
      else (Answer(after.txs[id]), after, if i.user.None? then None else Some(SaleOf(i, i.user.value, id)))
  }

  function Cancel(r: Rows, id: TxId, reason: int, now: int): (Reply<Tx>, Rows) {
    if id !in r.txs then (Refused(NOT_FOUND), r)
    else
      match r.txs[id].state
      case CANCELLED_TX => (ViewOf(r, id), r)
      case CANCELLED_AFTER_PERFORM => (ViewOf(r, id), r)
      case PERFORMED => (Refused(ALREADY_DELIVERED), r)
      case CREATED =>
        var after := CancelAndRelease(r, id, reason, now);
        if after.txs[id].intent in after.intents then (Answer(after.txs[id]), after) else (Refused(STORAGE_FAULT), r)
  }

  /** A status read; it has no clock and writes nothing. */
  function Read(r: Rows, id: TxId): Reply<Tx> {
    if id !in r.txs then Refused(NOT_FOUND) else ViewOf(r, id)
  }

  // ---- operator, sweeps, notifications, erasure ---------------------------------------------------------

  function ForceSettle(r: Rows, ref: Ref, text: string, now: int): (Reply<Intent>, Rows, Option<Sale>) {
    if ref !in r.intents then (Refused(NOT_FOUND), r, None)
    else
      var i := r.intents[ref];
      if i.state == PAID then (Answer(i), r, None)
      else if i.user.None? then (Refused(BUYER_ERASED), r, None)
      else
        var (claimed, after) := ClaimForOperator(r, ref, text, now);
        if !claimed then (Refused(NOT_OPEN), r, None)
        else (Answer(after.intents[ref]), after, Some(SaleOf(i, i.user.value, ref)))
  }

  /** The expiry sweep over whatever it read; each update decides again for itself. */
  function ExpireAll(r: Rows, refs: seq<Ref>, now: int): (nat, Rows) {
    if refs == [] then (0, r)
    else
      var (n, swept) := ExpireAll(r, refs[..|refs| - 1], now);
      var (expired, after) := ExpireIntent(swept, refs[|refs| - 1], now);
      (if expired then n + 1 else n, after)
  }

  /** The stale-transaction sweep over whatever it read. */
  function TimeOutAll(r: Rows, ids: seq<TxId>, now: int, c: Config): Rows {
    if ids == [] then r
    else
      var swept := TimeOutAll(r, ids[..|ids| - 1], now, c);
      var id := ids[|ids| - 1];
      if id in swept.txs && IsExpired(swept.txs[id].paymeTime, now, c.timeoutMs) then TimeOut(swept, id, now) else swept
  }

  function MarkNotified(r: Rows, ref: Ref, now: int): (Reply<bool>, Rows) {
    if ref !in r.intents then (Refused(NOT_FOUND), r)
    else if r.intents[ref].notifiedAt.Some? then (Answer(false), r)
    else (Answer(true), WithIntent(r, ref, r.intents[ref].(notifiedAt := Some(now))))
  }

  /** The one resume attempt a payment buys. */
  function ClaimResume(r: Rows, ref: Ref, now: int): (Reply<bool>, Rows) {
    if ref !in r.intents then (Refused(NOT_FOUND), r)
    else if r.intents[ref].state == PAID && r.intents[ref].resumedAt.None?
    then (Answer(true), WithIntent(r, ref, r.intents[ref].(resumedAt := Some(now))))
    else (Answer(false), r)
  }

  function Unowned(i: Intent): Intent { i.(user := None, resumeOrder := None) }

  /** Erasure takes the buyer and the draft id off every intent and leaves the rest. */
  function ForgetBuyer(r: Rows, u: User): Rows {
    r.(intents := map ref | ref in r.intents ::
      if r.intents[ref].user == Some(u) then Unowned(r.intents[ref]) else r.intents[ref])
  }

  predicate Purgeable(i: Intent, cutoff: int) {
    i.createdAt <= cutoff && i.state in {INTENT_CANCELLED, EXPIRED}
  }

  /** Retention deletes the abandoned intents among those it read. Transactions stay. */
  function Purge(r: Rows, refs: set<Ref>, cutoff: int): Rows {
    var gone := set ref | ref in refs && ref in r.intents && Purgeable(r.intents[ref], cutoff);
    r.(intents := r.intents - gone, index := map k | k in r.index && r.index[k] !in gone :: r.index[k])
  }
}
