/**
 * What each call on the payment rail answers and writes, told from the rows it finds and in no
 * terms but theirs: when a payment is taken up, what a timeout undoes, what erasure and retention
 * remove.
 */
module RailCalls {
  import opened Option
  import opened Keys
  import opened Ledger
  import opened Rail
  import opened RailInvariant
  import opened RailTheorems

  // ---- clocks ------------------------------------------------------------------------------------

  /** Milliseconds drop what is left of a microsecond count, toward zero on either side. */
  lemma MillisecondsTruncate(moment: int)
    ensures moment >= 0 ==> 1000 * ToMs(moment) <= moment < 1000 * ToMs(moment) + 1000
    ensures moment <= 0 ==> 1000 * ToMs(moment) - 1000 < moment <= 1000 * ToMs(moment)
  {
  }

  /** An open transaction the rail has left alone for longer than its window. */
  predicate Lapsed(tx: Tx, now: int, timeoutMs: nat) {
    tx.state == CREATED && ToMs(now) - ToMs(tx.paymeTime) > timeoutMs
  }

  // ---- taking a payment up ------------------------------------------------------------------------

  /** The reference is one of this merchant's, and its buyer is still known. */
  predicate IsOurs(r: Rows, ref: Ref, c: Config) {
    ref in r.intents && r.intents[ref].user.Some? && r.intents[ref].merchant == c.merchant
  }

  /** Nobody has taken the payment up, and its window is open. */
  predicate IsOnOffer(r: Rows, ref: Ref, now: int, c: Config) {
    IsOurs(r, ref, c) && r.intents[ref].state == PENDING && now < r.intents[ref].validUntil
  }

  /**
   * A new transaction is taken up if and only if its payment is on offer at exactly that amount,
   * and each refusal has its one cause; a refusal writes nothing.
   */
  lemma CreateIsAnsweredIff(r: Rows, q: CreateCall, now: int, c: Config)
    requires RailInv(r) && q.id !in r.txs
    ensures var (reply, after) := Create(r, q, now, c);
      && (reply.Answer? <==> IsOnOffer(r, q.ref, now, c) && r.intents[q.ref].amount == q.amount)
      && (reply.Refused? ==> after == r)
    ensures TellsWhy(r, q.ref, q.amount, now, c, Create(r, q, now, c).0)
  {
    if q.ref in r.intents { assert IntentShape(r.intents[q.ref]); }
    hide RailInv;
  }

  /** The quote shown on a payment form says the same, for the same reasons. */
  lemma QuoteIsAnsweredIff(r: Rows, ref: Ref, amount: int, now: int, c: Config)
    requires RailInv(r)
    ensures Payable(r, ref, amount, now, c).Answer? <==> IsOnOffer(r, ref, now, c) && r.intents[ref].amount == amount
    ensures Payable(r, ref, amount, now, c).Answer? ==> Payable(r, ref, amount, now, c).value == r.intents[ref]
    ensures TellsWhy(r, ref, amount, now, c, Payable(r, ref, amount, now, c))
  {
    if ref in r.intents { assert IntentShape(r.intents[ref]); }
    hide RailInv;
  }

  /** Which refusal is given when. */
  ghost predicate TellsWhy<T(!new)>(r: Rows, ref: Ref, amount: int, now: int, c: Config, reply: Reply<T>) {
    && (reply == Refused(ACCOUNT_UNKNOWN) <==> ref !in r.intents || r.intents[ref].user.None?)
    && (reply == Refused(WRONG_MERCHANT) <==>
          ref in r.intents && r.intents[ref].user.Some? && r.intents[ref].merchant != c.merchant)
    && (reply == Refused(ACCOUNT_PAID) <==> IsOurs(r, ref, c) && r.intents[ref].state == PAID)
    && (reply == Refused(DUPLICATE_HOLD) <==> IsOurs(r, ref, c) && r.intents[ref].state == AWAITING)
    && (reply == Refused(ACCOUNT_EXPIRED) <==>
          IsOurs(r, ref, c)
          && (r.intents[ref].state == EXPIRED || (r.intents[ref].state == PENDING && r.intents[ref].validUntil <= now)))
    && (reply == Refused(AMOUNT_MISMATCH) <==> IsOnOffer(r, ref, now, c) && r.intents[ref].amount != amount)
    && (reply.Refused? ==>
          reply.why in {ACCOUNT_UNKNOWN, WRONG_MERCHANT, ACCOUNT_PAID, DUPLICATE_HOLD, ACCOUNT_EXPIRED, AMOUNT_MISMATCH})
  }

  /** What taking a payment up writes: one open transaction, dated now, and the hold. Nothing else moves. */
  lemma CreateTakesTheHold(r: Rows, q: CreateCall, now: int, c: Config)
    requires q.id !in r.txs && Create(r, q, now, c).0.Answer?
    ensures var (reply, after) := Create(r, q, now, c);
      && q.ref in r.intents
      && after == r.(txs := r.txs[q.id := Tx(q.ref, q.paymeTime, q.amount, CREATED, None, now, None, None)],
                     intents := r.intents[q.ref := r.intents[q.ref].(state := AWAITING, active := Some(q.id))])
      && reply.value == after.txs[q.id]
  {
  }

  /**
   * A press opens an intent under a key nobody has used: pending, unheld, at its own price and
   * product, for as long as it was opened for; a price below nothing and a plan without its
   * length are refused.
   */
  lemma OpenIsAnsweredIff(r: Rows, q: Opening, ref: Ref, now: int)
    requires RailInv(r) && ref !in r.minted
    ensures var (reply, after) := Open(r, q, ref, now);
      var key := if q.product == SINGLE then SingleSale(q.tail) else PlanSale(q.tail);
      && (reply.Answer? <==> q.amount >= 0 && (q.product == SINGLE || (q.songs.Some? && q.days.Some?)))
      && (reply.Refused? || key in r.index ==> after == r)
      && (reply.Answer? && key !in r.index ==>
            && reply == Answer(ref) && after.txs == r.txs && after.minted == r.minted + {ref}
            && after.index == r.index[key := ref] && ref in after.intents
            && after.intents == r.intents[ref := after.intents[ref]]
            && var i := after.intents[ref];
               && i.key == key && i.user == Some(q.user) && i.product == q.product && i.amount == q.amount
               && i.songs == q.songs && i.days == q.days && i.merchant == q.merchant && i.resumeOrder == q.resumeOrder
               && i.state == PENDING && i.active.None? && i.settledAt.None? && i.note.None?
               && i.notifiedAt.None? && i.resumedAt.None? && i.createdAt == now && i.validUntil == now + q.ttl * 1_000_000)
  {
  }

  // ---- timing out and cancelling ----------------------------------------------------------------------

  /** The transaction as a cancellation leaves it. */
  function Ended(tx: Tx, reason: int, now: int): Tx {
    tx.(state := CANCELLED_TX, reason := Some(reason), cancelTime := Some(now))
  }

  // Exactly these transactions end, and exactly the intents they hold unpaid are free again.
  ghost predicate EndsExactly(r: Rows, after: Rows, ids: set<TxId>, reason: int, now: int)
    requires forall id :: id in ids ==> id in r.txs
  {
    && after.index == r.index && after.minted == r.minted
    && (forall id :: id in after.txs <==> id in r.txs)
    && (forall id :: id in r.txs ==> after.txs[id] == if id in ids then Ended(r.txs[id], reason, now) else r.txs[id])
    && (forall ref :: ref in after.intents <==> ref in r.intents)
    && (forall ref :: ref in r.intents ==>
          var i := r.intents[ref];
          after.intents[ref] == if i.state == AWAITING && i.active.Some? && i.active.value in ids
                                then i.(state := PENDING, active := None) else i)
  }

  lemma EndingOneIsExact(r: Rows, id: TxId, reason: int, now: int)
    requires RailInv(r) && id in r.txs && r.txs[id].state == CREATED
    ensures EndsExactly(r, CancelAndRelease(r, id, reason, now), {id}, reason, now)
  {
    assert TxHolds(r, id);
    forall ref | ref in r.intents && r.intents[ref].state == AWAITING && r.intents[ref].active == Some(id)
      ensures ref == r.txs[id].intent
    {
      assert HolderAnswers(r, ref);
    }
    hide RailInv;
  }

  /** A cancel ends an open transaction with the rail's own reason, and frees the intent it held unpaid. */
  lemma CancelIsExact(r: Rows, id: TxId, reason: int, now: int)
    requires RailInv(r)
    ensures var (reply, after) := Cancel(r, id, reason, now);
      && (id !in r.txs ==> reply == Refused(NOT_FOUND) && after == r)
      && (id in r.txs && r.txs[id].state == PERFORMED ==> reply == Refused(ALREADY_DELIVERED) && after == r)
      && (id in r.txs && r.txs[id].state == CANCELLED_TX ==> after == r)
      && (id in r.txs && r.txs[id].state == CREATED ==>
            reply == Answer(Ended(r.txs[id], reason, now)) && EndsExactly(r, after, {id}, reason, now))
  {
    if id in r.txs && r.txs[id].state == CREATED {
      EndingOneIsExact(r, id, reason, now);
      assert TxHolds(r, id);
    }
    hide RailInv, CancelAndRelease;
  }

  /** A perform, or a repeated create, past the window ends the transaction first and refuses second. */
  lemma LateCallsTimeOut(r: Rows, id: TxId, q: CreateCall, now: int, c: Config)
    requires RailInv(r) && id in r.txs && Lapsed(r.txs[id], now, c.timeoutMs) && q.id == id
    ensures var (reply, after, sale) := Perform(r, id, now, c);
      reply == Refused(STATE_REFUSAL) && sale.None? && EndsExactly(r, after, {id}, 4, now)
    ensures var (reply, after) := Create(r, q, now, c);
      reply == Refused(STATE_REFUSAL) && EndsExactly(r, after, {id}, 4, now)
  {
    EndingOneIsExact(r, id, 4, now);
    hide RailInv, CancelAndRelease, EndsExactly;
  }

  /** Inside the window, its last millisecond included, neither call times anything out. */
  lemma TimelyCallsDoNot(r: Rows, id: TxId, q: CreateCall, now: int, c: Config)
    requires RailInv(r) && id in r.txs && r.txs[id].state == CREATED && !Lapsed(r.txs[id], now, c.timeoutMs) && q.id == id
    ensures Create(r, q, now, c) == (Answer(r.txs[id]), r)
    ensures var (reply, after, _) := Perform(r, id, now, c);
      id in after.txs && after.txs[id].state == if reply.Answer? then PERFORMED else CREATED
  {
    assert TxHolds(r, id);
    hide RailInv;
  }

  // The transactions a sweep that read these ends.
  function LapsedAmong(r: Rows, ids: seq<TxId>, now: int, timeoutMs: nat): set<TxId> {
    set id | id in ids && id in r.txs && Lapsed(r.txs[id], now, timeoutMs)
  }

  /**
   * The stale-transaction sweep ends exactly the open transactions it read that the rail has left
   * alone for longer than their window, with the timeout's reason and the sweep's own instant, and
   * frees exactly the intents they held unpaid.
   */
  lemma {:induction false} TimeOutIsExact(r: Rows, ids: seq<TxId>, now: int, c: Config)
    requires RailInv(r)
    ensures EndsExactly(r, TimeOutAll(r, ids, now, c), LapsedAmong(r, ids, now, c.timeoutMs), 4, now)
  {
    hide RailInv, CancelAndRelease, EndsExactly;
    if ids == [] {
      assert LapsedAmong(r, ids, now, c.timeoutMs) == {};
      EndsNothing(r, now);
    } else {
      var n := |ids| - 1;
      var id, swept := ids[n], TimeOutAll(r, ids[..n], now, c);
      TimeOutIsExact(r, ids[..n], now, c);
      TimeOutAllKeeps(r, ids[..n], now, c);
      OneMoreLapsed(r, ids, now, c.timeoutMs);
      SweptSame(r, swept, LapsedAmong(r, ids[..n], now, c.timeoutMs), id, now);
      if id in swept.txs && swept.txs[id].state == CREATED {
        EndingOneIsExact(swept, id, 4, now);
        if Lapsed(r.txs[id], now, c.timeoutMs) {
          EndsOneMore(r, swept, TimeOut(swept, id, now), LapsedAmong(r, ids[..n], now, c.timeoutMs), id, now);
        }
      } else if id in swept.txs {
        StrangersCannotRelease(swept, id, 4, now);
      }
      assert LapsedAmong(r, ids[..n], now, c.timeoutMs) + {} == LapsedAmong(r, ids[..n], now, c.timeoutMs);
      if id in LapsedAmong(r, ids[..n], now, c.timeoutMs) {
        assert LapsedAmong(r, ids[..n], now, c.timeoutMs) + {id} == LapsedAmong(r, ids[..n], now, c.timeoutMs);
      }
    }
  }

  lemma EndsNothing(r: Rows, now: int)
    ensures EndsExactly(r, r, {}, 4, now)
  {
  }

  lemma OneMoreLapsed(r: Rows, ids: seq<TxId>, now: int, timeoutMs: nat)
    requires ids != []
    ensures var id := ids[|ids| - 1];
      LapsedAmong(r, ids, now, timeoutMs)
      == LapsedAmong(r, ids[..|ids| - 1], now, timeoutMs)
         + if id in r.txs && Lapsed(r.txs[id], now, timeoutMs) then {id} else {}
  {
    assert forall t :: t in ids <==> t in ids[..|ids| - 1] || t == ids[|ids| - 1];
  }

  lemma SweptSame(r: Rows, swept: Rows, ended: set<TxId>, id: TxId, now: int)
    requires forall t :: t in ended ==> t in r.txs && r.txs[t].state == CREATED
    requires EndsExactly(r, swept, ended, 4, now)
    ensures id in swept.txs <==> id in r.txs
    ensures id in r.txs ==> swept.txs[id] == if id in ended then Ended(r.txs[id], 4, now) else r.txs[id]
  {
  }

  lemma EndsOneMore(r: Rows, swept: Rows, after: Rows, ended: set<TxId>, id: TxId, now: int)
    requires id in r.txs && id !in ended && forall t :: t in ended ==> t in r.txs
    requires EndsExactly(r, swept, ended, 4, now) && id in swept.txs && EndsExactly(swept, after, {id}, 4, now)
    ensures EndsExactly(r, after, ended + {id}, 4, now)
  {
  }

  // The intents an expiry sweep that read these expires.
  function ClosedAmong(r: Rows, refs: seq<Ref>, now: int): set<Ref> {
    set ref | ref in refs && ref in r.intents && r.intents[ref].state == PENDING && r.intents[ref].validUntil <= now
  }

  /** The number an expiry sweep reports is that of the pending intents it read whose window has closed. */
  lemma {:induction false} ExpiryCountIsExact(r: Rows, refs: seq<Ref>, now: int)
    ensures ExpireAll(r, refs, now).0 == |ClosedAmong(r, refs, now)|
  {
    if refs == [] {
      assert ClosedAmong(r, refs, now) == {};
    } else {
      var n := |refs| - 1;
      var last, swept := refs[n], ExpireAll(r, refs[..n], now).1;
      ExpiryCountIsExact(r, refs[..n], now);
      assert forall t :: t in refs <==> t in refs[..n] || t == last;
      if last in r.intents { ExpiryIsExact(r, refs[..n], now, last); } else { ExpiryAddsNone(r, refs[..n], now, last); }
      var before := ClosedAmong(r, refs[..n], now);
      assert ClosedAmong(r, refs, now) == if ExpireIntent(swept, last, now).0 then before + {last} else before;
    }
  }

  lemma {:induction false} ExpiryAddsNone(r: Rows, refs: seq<Ref>, now: int, ref: Ref)
    requires ref !in r.intents
    ensures ref !in ExpireAll(r, refs, now).1.intents
  {
    if refs != [] { ExpiryAddsNone(r, refs[..|refs| - 1], now, ref); }
  }

  // ---- settling --------------------------------------------------------------------------------------------

  // What a settlement sells, field by field.
  predicate SellsIt(i: Intent, reference: string, sale: Option<Sale>) {
    && (sale.None? <==> i.user.None?)
    && (sale.Some? ==>
          && i.user == Some(sale.value.user) && sale.value.key == i.key
          && sale.value.songs == i.songs && sale.value.days == i.days
          && sale.value.purchase == Purchase(i.product, i.amount, reference, true))
  }

  /**
   * A perform in its window: a transaction never created is not found, a performed one is told what it
   * was told, a cancelled one is refused, and so is one on another merchant's intent, all at no cost. Any
   * other is performed at this instant; an intent still awaiting it is paid, and one an operator paid
   * meanwhile stays as it is.
   */
  lemma PerformIsExact(r: Rows, id: TxId, now: int, c: Config)
    requires RailInv(r) && (id in r.txs ==> !Lapsed(r.txs[id], now, c.timeoutMs))
    ensures var (reply, after, sale) := Perform(r, id, now, c);
      if id !in r.txs then (reply, after, sale) == (Refused(NOT_FOUND), r, None)
      else if r.txs[id].state == PERFORMED then (reply, after, sale) == (Answer(r.txs[id]), r, None)
      else if r.txs[id].state != CREATED then (reply, after, sale) == (Refused(STATE_REFUSAL), r, None)
      else
        var ref := r.txs[id].intent;
        && ref in r.intents && r.intents[ref].state in {AWAITING, PAID}
        && if r.intents[ref].merchant != c.merchant then (reply, after, sale) == (Refused(WRONG_MERCHANT), r, None)
           else
             && reply == Answer(r.txs[id].(state := PERFORMED, performTime := Some(now)))
             && after == r.(txs := r.txs[id := r.txs[id].(state := PERFORMED, performTime := Some(now))],
                            intents := r.intents[ref := if r.intents[ref].state == PAID then r.intents[ref] else
                              r.intents[ref].(state := PAID, settledAt := Some(now), note := Some(RailNote))])
             && SellsIt(r.intents[ref], id, sale)
  {
    if id in r.txs && r.txs[id].state in {CREATED, PERFORMED} {
      assert TxHolds(r, id);
      var ref := r.txs[id].intent;
      if r.intents[ref].state == PAID { assert r.intents[ref := r.intents[ref]] == r.intents; }
    }
    hide RailInv;
  }

  /** An operator settles exactly what is pending or awaiting and still has its buyer; what is paid is told so. */
  lemma HandIsExact(r: Rows, ref: Ref, text: string, now: int)
    requires RailInv(r)
    ensures var (reply, after, sale) := ForceSettle(r, ref, text, now);
      if ref !in r.intents then (reply, after, sale) == (Refused(NOT_FOUND), r, None)
      else if r.intents[ref].state == PAID then (reply, after, sale) == (Answer(r.intents[ref]), r, None)
      else if r.intents[ref].user.None? then (reply, after, sale) == (Refused(BUYER_ERASED), r, None)
      else if r.intents[ref].state == EXPIRED then (reply, after, sale) == (Refused(NOT_OPEN), r, None)
      else
        var paid := r.intents[ref].(state := PAID, settledAt := Some(now), note := Some(OperatorNote(text)));
        && reply == Answer(paid) && after == r.(intents := r.intents[ref := paid]) && SellsIt(r.intents[ref], ref, sale)
  {
    if ref in r.intents { assert IntentShape(r.intents[ref]); }
    hide RailInv;
  }

  // ---- erasure, retention, notices ---------------------------------------------------------------------

  /**
   * Erasure leaves no intent that names the buyer, takes the draft off those that did, and changes
   * nothing else: no other field, nobody else's intent, no transaction.
   */
  lemma ErasureIsComplete(r: Rows, u: User)
    ensures var after := ForgetBuyer(r, u);
      && after.txs == r.txs && after.index == r.index && after.minted == r.minted
      && (forall ref :: ref in after.intents <==> ref in r.intents)
      && (forall ref :: ref in r.intents ==>
            && after.intents[ref].user != Some(u)
            && (r.intents[ref].user != Some(u) ==> after.intents[ref] == r.intents[ref])
            && (r.intents[ref].user == Some(u) ==>
                  && after.intents[ref].user.None? && after.intents[ref].resumeOrder.None?
                  && after.intents[ref] == r.intents[ref].(user := None, resumeOrder := None)))
  {
  }

  /** Retention deletes exactly the intents it read that were abandoned and are old enough, and their keys with them. */
  lemma PurgeIsExact(r: Rows, refs: set<Ref>, cutoff: int)
    requires RailInv(r)
    ensures var after := Purge(r, refs, cutoff);
      && after.txs == r.txs && after.minted == r.minted
      && (forall ref :: ref in after.intents <==>
            ref in r.intents && !(ref in refs && r.intents[ref].createdAt <= cutoff && r.intents[ref].state == EXPIRED))
      && (forall ref :: ref in after.intents ==> after.intents[ref] == r.intents[ref])
      && (forall k :: k in after.index <==> k in r.index && r.index[k] in after.intents)
      && (forall k :: k in after.index ==> after.index[k] == r.index[k])
  {
    forall ref | ref in r.intents ensures r.intents[ref].state != INTENT_CANCELLED { assert IntentShape(r.intents[ref]); }
  }

  /** The one resume a payment buys is given exactly to the first who asks once it is paid. */
  lemma ResumeIsClaimedIff(r: Rows, ref: Ref, now: int)
    ensures var (reply, after) := ClaimResume(r, ref, now);
      && (reply == Answer(true) <==> ref in r.intents && r.intents[ref].state == PAID && r.intents[ref].resumedAt.None?)
      && (reply != Answer(true) ==> after == r)
      && (reply == Answer(true) ==>
            after == r.(intents := r.intents[ref := r.intents[ref].(resumedAt := Some(now))]))
  {
  }

  /** A settlement is announced once: the first announcement is stamped, later ones are told so. */
  lemma NoticeIsStampedIff(r: Rows, ref: Ref, now: int)
    ensures var (reply, after) := MarkNotified(r, ref, now);
      && (reply == Answer(true) <==> ref in r.intents && r.intents[ref].notifiedAt.None?)
      && (reply != Answer(true) ==> after == r)
      && (reply == Answer(true) ==>
            after == r.(intents := r.intents[ref := r.intents[ref].(notifiedAt := Some(now))]))
  {
  }
}
