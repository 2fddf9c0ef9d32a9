/**
 * The payment rail's tables as the program works on them: conditional updates whose row
 * count decides, one transaction per call, and a sale written into the credit tables in the
 * same commit. Every call is proved to be its namesake in Rail and Settlement.
 */
module RailStore {
  import opened Option
  import opened Keys
  import opened Ledger
  import opened Rail
  import opened Settlement
  import CreditStore

  class Store {
    var intents: map<Ref, Intent>
    var index: map<Key, Ref>
    var txs: map<TxId, Tx>
    var minted: set<Ref>
    const meter: CreditStore.Store

    function Tables(): Rows
      reads this
    {
      Rows(intents, index, txs, minted)
    }

    function All(): System
      reads this, meter
    {
      System(meter.Rows(), Tables())
    }

    constructor (credits: CreditStore.Store)
      ensures meter == credits && Tables() == Rows(map[], map[], map[], {})
    {
      intents, index, txs, minted, meter := map[], map[], map[], {}, credits;
    }

    method RestoreTables(r: Rows)
      modifies this
      ensures Tables() == r
    {
      intents, index, txs, minted := r.intents, r.index, r.txs, r.minted;
    }

    // ---- conditional updates -------------------------------------------------------------

    method Hold(ref: Ref, id: TxId) returns (won: bool)
      modifies this`intents
      ensures (won, Tables()) == HoldIntent(old(Tables()), ref, id)
    {
      won := ref in intents && intents[ref].state == PENDING;
      if won {
        intents := intents[ref := intents[ref].(state := AWAITING, active := Some(id))];
      }
    }

    method Release(ref: Ref, id: TxId) returns (won: bool)
      modifies this`intents
      ensures (won, Tables()) == ReleaseIntent(old(Tables()), ref, id)
    {
      won := ref in intents && intents[ref].state == AWAITING && intents[ref].active == Some(id);
      if won {
        intents := intents[ref := intents[ref].(state := PENDING, active := None)];
      }
    }

    method Claim(ref: Ref, id: TxId, now: int) returns (won: bool)
      modifies this`intents
      ensures (won, Tables()) == ClaimIntent(old(Tables()), ref, id, now)
    {
      won := ref in intents && intents[ref].state == AWAITING && intents[ref].active == Some(id);
      if won {
        intents := intents[ref := intents[ref].(state := PAID, settledAt := Some(now), note := Some(RailNote))];
      }
    }

    method ClaimByOperator(ref: Ref, text: string, now: int) returns (won: bool)
      modifies this`intents
      ensures (won, Tables()) == ClaimForOperator(old(Tables()), ref, text, now)
    {
      won := ref in intents && intents[ref].state in {PENDING, AWAITING};
      if won {
        intents := intents[ref := intents[ref].(state := PAID, settledAt := Some(now), note := Some(OperatorNote(text)))];
      }
    }

    method Expire(ref: Ref, now: int) returns (won: bool)
      modifies this`intents
      ensures (won, Tables()) == ExpireIntent(old(Tables()), ref, now)
    {
      won := ref in intents && intents[ref].state == PENDING && intents[ref].validUntil <= now;
      if won {
        intents := intents[ref := intents[ref].(state := EXPIRED)];
      }
    }

    method FlipPerformed(id: TxId, now: int) returns (won: bool)
      modifies this`txs
      ensures (won, Tables()) == MarkPerformed(old(Tables()), id, now)
    {
      won := id in txs && txs[id].state == CREATED;
      if won {
        txs := txs[id := txs[id].(state := PERFORMED, performTime := Some(now))];
      }
    }

    method FlipCancelled(id: TxId, reason: int, now: int) returns (won: bool)
      modifies this`txs
      ensures (won, Tables()) == MarkCancelled(old(Tables()), id, reason, now)
    {
      won := id in txs && txs[id].state == CREATED;
      if won {
        txs := txs[id := txs[id].(state := CANCELLED_TX, reason := Some(reason), cancelTime := Some(now))];
      }
    }

    /** Both row counts are ignored: whoever lost, the end state is the one wanted. */
    method CloseAndRelease(id: TxId, reason: int, now: int)
      requires id in txs
      modifies this`intents, this`txs
      ensures Tables() == CancelAndRelease(old(Tables()), id, reason, now)
    {
      var ref := txs[id].intent;
      var _ := FlipCancelled(id, reason, now);
      var _ := Release(ref, id);
    }

    // ---- the calls -------------------------------------------------------------------------

    method OpenIntent(q: Opening, ref: Ref, now: int) returns (r: Reply<Ref>)
      modifies this
      ensures (r, Tables()) == Open(old(Tables()), q, ref, now)
    {
      if q.amount < 0 || (q.product == STARTER && (q.songs.None? || q.days.None?)) {
        return Refused(STORAGE_FAULT);
      }
      var key := SaleKey(q.product, q.tail);
      if key !in index {
        if ref in intents {
          return Refused(STORAGE_FAULT);
        }
        intents := intents[ref := NewIntent(q, now)];
        index := index[key := ref];
        minted := minted + {ref};
      }
      return Answer(index[key]);
    }

    method CreateTransaction(q: CreateCall, now: int, c: Config) returns (r: Reply<Tx>)
      modifies this
      ensures (r, Tables()) == Create(old(Tables()), q, now, c)
    {
      if q.id in txs {
        var tx := txs[q.id];
        if tx.state != CREATED {
          return Refused(STATE_REFUSAL);
        }
        if !IsExpired(tx.paymeTime, now, c.timeoutMs) {
          return ViewOf(Tables(), q.id);
        }
        // Cancel first, refuse second.
        CloseAndRelease(q.id, TIMEOUT_REASON, now);
        return Refused(STATE_REFUSAL);
      }
      var payable := Payable(Tables(), q.ref, q.amount, now, c);
      if payable.Refused? {
        return Refused(payable.why);
      }
      var begin := Tables();
      txs := txs[q.id := Tx(q.ref, q.paymeTime, q.amount, CREATED, None, now, None, None)];
      var held := Hold(q.ref, q.id);
      if !held {
        RestoreTables(begin);
        return Refused(DUPLICATE_HOLD);
      }
      return Answer(txs[q.id]);
    }

    /** The shared write primitive, routed on the intent's own product. */
    method RecordSale(sale: Sale, now: int) returns (written: bool)
      modifies meter
      ensures (written, meter.Rows()) == WriteSale(old(meter.Rows()), sale, now)
    {
      match sale.key
      case SingleSale(tail) =>
        written := meter.FulfilSingle(sale.user, sale.purchase, tail, now);
      case PlanSale(tail) =>
        if sale.songs.None? || sale.days.None? {
          return false;
        }
        written := meter.StartPlan(sale.user, sale.purchase, sale.songs.value, sale.days.value, tail, now);
      case _ =>
        return false;
    }

    method PerformTransaction(id: TxId, now: int, c: Config) returns (r: Reply<Tx>)
      modifies this, meter
      ensures (r, All()) == PerformCall(old(All()), id, now, c)
    {
      if id !in txs {
        return Refused(NOT_FOUND);
      }
      var tx := txs[id];
      if tx.state == PERFORMED {
        return ViewOf(Tables(), id);
      }
      if tx.state != CREATED {
        return Refused(STATE_REFUSAL);
      }
      if IsExpired(tx.paymeTime, now, c.timeoutMs) {
        CloseAndRelease(id, TIMEOUT_REASON, now);
        return Refused(STATE_REFUSAL);
      }
      var begin := Tables();
      var _ := FlipPerformed(id, now);
      if tx.intent !in intents {
        RestoreTables(begin);
        return Refused(STORAGE_FAULT);
      }
      if intents[tx.intent].merchant != c.merchant {
        RestoreTables(begin);
        return Refused(WRONG_MERCHANT);
      }
      var claimed := Claim(tx.intent, id, now);
      var i := intents[tx.intent];
      if !claimed && !(i.state == PAID && i.active == Some(id)) {
        RestoreTables(begin);
        return Refused(STATE_REFUSAL);
      }
      if i.user.Some? {
        var written := RecordSale(SaleOf(i, i.user.value, id), now);
        if !written {
          RefusedSaleWritesNothing(old(meter.Rows()), SaleOf(i, i.user.value, id), now);
          RestoreTables(begin);
          return Refused(STORAGE_FAULT);
        }
      }
      return Answer(txs[id]);
    }

    method CancelTransaction(id: TxId, reason: int, now: int) returns (r: Reply<Tx>)
      modifies this
      ensures (r, Tables()) == Cancel(old(Tables()), id, reason, now)
    {
      if id !in txs {
        return Refused(NOT_FOUND);
      }
      var tx := txs[id];
      if tx.state == CANCELLED_TX || tx.state == CANCELLED_AFTER_PERFORM {
        return ViewOf(Tables(), id);
      }
      if tx.state == PERFORMED {
        return Refused(ALREADY_DELIVERED);
      }
      var begin := Tables();
      CloseAndRelease(id, reason, now);
      if txs[id].intent !in intents {
        RestoreTables(begin);
        return Refused(STORAGE_FAULT);
      }
      return Answer(txs[id]);
    }

    method SettleForOperator(ref: Ref, text: string, now: int) returns (r: Reply<Intent>)
      modifies this, meter
      ensures (r, All()) == SettleByHand(old(All()), ref, text, now)
    {
      if ref !in intents {
        return Refused(NOT_FOUND);
      }
      var i := intents[ref];
      if i.state == PAID {
        return Answer(i);
      }
      if i.user.None? {
        return Refused(BUYER_ERASED);
      }
      var begin := Tables();
      var claimed := ClaimByOperator(ref, text, now);
      if !claimed {
        return Refused(NOT_OPEN);
      }
      var written := RecordSale(SaleOf(i, i.user.value, ref), now);
      if !written {
        RefusedSaleWritesNothing(old(meter.Rows()), SaleOf(i, i.user.value, ref), now);
        RestoreTables(begin);
        return Refused(STORAGE_FAULT);
      }
      return Answer(intents[ref]);
    }

    // ---- sweeps, notifications, erasure ---------------------------------------------------------

    method ExpireLapsed(refs: seq<Ref>, now: int) returns (expired: nat)
      modifies this`intents
      ensures (expired, Tables()) == ExpireAll(old(Tables()), refs, now)
    {
      expired := 0;
      var k := 0;
      while k < |refs|
        invariant 0 <= k <= |refs|
        invariant (expired, Tables()) == ExpireAll(old(Tables()), refs[..k], now)
      {
        assert refs[..k + 1][..k] == refs[..k];
        var won := Expire(refs[k], now);
        if won {
          expired := expired + 1;
        }
        k := k + 1;
      }
      assert refs[..k] == refs;
    }

    /** The count is of the rows read that are past their window. */
    method ExpireStaleTransactions(ids: seq<TxId>, now: int, c: Config) returns (cancelled: nat)
      modifies this`intents, this`txs
      ensures Tables() == TimeOutAll(old(Tables()), ids, now, c)
      ensures cancelled == |PastWindow(old(txs), ids, |ids|, now, c.timeoutMs)|
    {
      hide CancelAndRelease, ToMs, PastWindow;
      cancelled := 0;
      var k := 0;
      NonePast(txs, ids, now, c.timeoutMs);
      while k < |ids|
        invariant 0 <= k <= |ids|
        invariant Tables() == TimeOutAll(old(Tables()), ids[..k], now, c)
        invariant cancelled == |PastWindow(old(txs), ids, k, now, c.timeoutMs)|
        invariant forall id :: (id in txs <==> id in old(txs)) && (id in txs ==> txs[id].paymeTime == old(txs)[id].paymeTime)
      {
        assert ids[..k + 1][..k] == ids[..k];
        OneMorePast(old(txs), ids, k, now, c.timeoutMs);
        if ids[k] in txs { EndingKeepsTimes(Tables(), ids[k], TIMEOUT_REASON, now); }
        if ids[k] in txs && IsExpired(txs[ids[k]].paymeTime, now, c.timeoutMs) {
          CloseAndRelease(ids[k], TIMEOUT_REASON, now);
          cancelled := cancelled + 1;
        }
        k := k + 1;
      }
      assert ids[..k] == ids;
    }

    method StampNotified(ref: Ref, now: int) returns (r: Reply<bool>)
      modifies this`intents
      ensures (r, Tables()) == MarkNotified(old(Tables()), ref, now)
    {
      if ref !in intents {
        return Refused(NOT_FOUND);
      }
      if intents[ref].notifiedAt.Some? {
        return Answer(false);
      }
      intents := intents[ref := intents[ref].(notifiedAt := Some(now))];
      return Answer(true);
    }

    method ClaimRender(ref: Ref, now: int) returns (r: Reply<bool>)
      modifies this`intents
      ensures (r, Tables()) == ClaimResume(old(Tables()), ref, now)
    {
      if ref !in intents {
        return Refused(NOT_FOUND);
      }
      var won := intents[ref].state == PAID && intents[ref].resumedAt.None?;
      if won {
        intents := intents[ref := intents[ref].(resumedAt := Some(now))];
      }
      return Answer(won);
    }
  }

  // Which of the first n rows read the rail has left alone for longer than their window.
  function PastWindow(txs: map<TxId, Tx>, ids: seq<TxId>, n: nat, now: int, timeoutMs: int): set<nat>
    requires n <= |ids|
  {
    set k: nat | k < n && ids[k] in txs && ToMs(now) - ToMs(txs[ids[k]].paymeTime) > timeoutMs
  }

  lemma NonePast(txs: map<TxId, Tx>, ids: seq<TxId>, now: int, timeoutMs: int)
    ensures PastWindow(txs, ids, 0, now, timeoutMs) == {}
  {
  }

  lemma EndingKeepsTimes(r: Rows, id: TxId, reason: int, now: int)
    requires id in r.txs
    ensures var after := CancelAndRelease(r, id, reason, now);
      forall t :: (t in after.txs <==> t in r.txs) && (t in r.txs ==> after.txs[t].paymeTime == r.txs[t].paymeTime)
  {
  }

  lemma OneMorePast(txs: map<TxId, Tx>, ids: seq<TxId>, n: nat, now: int, timeoutMs: int)
    requires n < |ids|
    ensures |PastWindow(txs, ids, n + 1, now, timeoutMs)|
         == |PastWindow(txs, ids, n, now, timeoutMs)|
            + if ids[n] in txs && ToMs(now) - ToMs(txs[ids[n]].paymeTime) > timeoutMs then 1 else 0
  {
    hide ToMs;
    var before := PastWindow(txs, ids, n, now, timeoutMs);
    assert PastWindow(txs, ids, n + 1, now, timeoutMs)
        == if ids[n] in txs && ToMs(now) - ToMs(txs[ids[n]].paymeTime) > timeoutMs then before + {n} else before;
  }

  // A sale that is refused has refused before its first write.
  lemma RefusedSaleWritesNothing(db: Db, sale: Sale, now: int)
    requires !WriteSale(db, sale, now).0
    ensures WriteSale(db, sale, now).1 == db
  {
  }
}
