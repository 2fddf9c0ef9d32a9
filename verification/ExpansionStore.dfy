/** One campaign's expansion, updated in place a page at a time. */
module ExpansionStore {
  import opened Option
  import opened Expansion

  class CampaignRow {
    var state: State
    var cursor: Cursor
    var recipientCount: int
    var rows: Ledger
    var blanks: nat

    function Value(): Campaign
      reads this
    {
      Campaign(state, cursor, recipientCount, rows, blanks)
    }

    constructor ()
      ensures Value() == BORN.campaign
    {
      state, cursor, recipientCount, rows, blanks := EXPANDING, None, 0, map[], 0;
    }

    /** Insert-or-ignore, one statement per scanned account, then one conditional progress update. */
    method ExpandChunk(scanned: seq<Account>, limit: nat, blocked: set<Account>) returns (accepted: bool, inserted: nat)
      requires limit >= 1
      modifies this
      ensures (accepted, Value()) == Expand(old(Value()), scanned, limit, blocked)
      ensures inserted == |rows| - |old(rows)|
    {
      var kept := if |scanned| > limit then scanned[..limit] else scanned;
      var next := if |scanned| > limit then Some(kept[|kept| - 1]) else None;
      inserted := 0;
      var k := 0;
      while k < |kept|
        invariant 0 <= k <= |kept| && rows == Inserted(old(rows), kept[..k], blocked)
        invariant inserted == |rows| - |old(rows)|
        invariant unchanged(`state, `cursor, `recipientCount, `blanks)
      {
        assert kept[..k + 1][..k] == kept[..k];
        if kept[k] !in rows {
          rows := rows[kept[k] := kept[k] in blocked];
          inserted := inserted + 1;
        }
        k := k + 1;
      }
      assert kept[..k] == kept;
      accepted := state == EXPANDING;
      if accepted {
        recipientCount := recipientCount + inserted;
        state := if next.Some? then EXPANDING else READY;
        cursor := next;
      }
    }
  }
}
