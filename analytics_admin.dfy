/** The fingerprint block admin (backend/apps/analytics/admin.py): the
    shortened list columns and the bulk unblock action. The block model's
    own unblock() is not part of this model; its effect is taken to be
    clearing the block's active flag, which is what makes the fingerprint
    usable again. */
module AnalyticsAdmin {
  import opened Common

  /** fingerprint_short: at most 16 characters and "..." */
  function FingerprintShort(fp: string): (r: string)
    ensures |fp| <= 16 ==> r == fp
    ensures |fp| > 16 ==> |r| == 19 && r[..16] == fp[..16] && r[16..] == "..."
  {
    if |fp| > 16 then fp[..16] + "..." else fp
  }

  /** reason_short: at most 50 characters and "..." */
  function ReasonShort(reason: string): (r: string)
    ensures |reason| <= 50 ==> r == reason
    ensures |reason| > 50 ==> |r| == 53 && r[..50] == reason[..50] && r[50..] == "..."
  {
    if |reason| > 50 then reason[..50] + "..." else reason
  }

  /** Both columns are never longer than their limit plus the ellipsis and
      always start with the start of the original text. */
  lemma ShortColumnsBounded(fp: string, reason: string)
    ensures |FingerprintShort(fp)| <= 19 && |ReasonShort(reason)| <= 53
    ensures StartsWith(FingerprintShort(fp), Take(fp, 16))
    ensures StartsWith(ReasonShort(reason), Take(reason, 50))
  {
  }

  datatype Block = Block(fingerprint: string, isActive: bool)

  /** A fingerprint is blocked while an active block names it. */
  predicate IsBlocked(blocks: map<int, Block>, fp: string) {
    exists id :: id in blocks && blocks[id].fingerprint == fp && blocks[id].isActive
  }

  /** The selected blocks that are still active. */
  function ActiveSelected(blocks: map<int, Block>, selection: set<int>): set<int> {
    set id | id in selection && id in blocks && blocks[id].isActive
  }

  /** The blocks after unblocking the active ones among `selection`. */
  function Unblocked(blocks: map<int, Block>, selection: set<int>): (r: map<int, Block>)
    ensures r.Keys == blocks.Keys
    ensures forall id :: id in r ==> r[id].fingerprint == blocks[id].fingerprint
    ensures forall id :: id in r && id in selection ==> !r[id].isActive
    ensures forall id :: id in r && id !in selection ==> r[id] == blocks[id]
  {
    map id | id in blocks :: if id in selection && blocks[id].isActive then blocks[id].(isActive := false) else blocks[id]
  }

  /** After unblocking a selection that includes every block naming `fp`,
      `fp` is no longer blocked; a fingerprint none of whose blocks was
      selected is exactly as blocked as before. */
  lemma UnblockClearsFingerprint(blocks: map<int, Block>, selection: set<int>, fp: string)
    ensures (forall id :: id in blocks && blocks[id].fingerprint == fp ==> id in selection)
            ==> !IsBlocked(Unblocked(blocks, selection), fp)
    ensures (forall id :: id in blocks && blocks[id].fingerprint == fp ==> id !in selection)
            ==> (IsBlocked(Unblocked(blocks, selection), fp) <==> IsBlocked(blocks, fp))
  {
    var r := Unblocked(blocks, selection);
    if forall id :: id in blocks && blocks[id].fingerprint == fp ==> id !in selection {
      if IsBlocked(blocks, fp) {
        var id :| id in blocks && blocks[id].fingerprint == fp && blocks[id].isActive;
        assert r[id] == blocks[id];
      }
    }
  }

  /** Running the action again on the same selection unblocks nothing and
      changes nothing. */
  lemma UnblockAgainIsNoOp(blocks: map<int, Block>, selection: set<int>)
    ensures ActiveSelected(Unblocked(blocks, selection), selection) == {}
    ensures Unblocked(Unblocked(blocks, selection), selection) == Unblocked(blocks, selection)
  {
  }

  /** Unblocking one more active block extends the partial result by
      that block's update. */
  lemma UnblockOneMore(blocks: map<int, Block>, done: set<int>, id: int)
    requires id in blocks && blocks[id].isActive && id !in done
    ensures Unblocked(blocks, done + {id})
      == Unblocked(blocks, done)[id := Unblocked(blocks, done)[id].(isActive := false)]
  {
  }

  /** Only the active selected blocks are changed by unblocking. */
  lemma UnblockActiveOnly(blocks: map<int, Block>, selection: set<int>)
    ensures Unblocked(blocks, ActiveSelected(blocks, selection)) == Unblocked(blocks, selection)
  {
  }

  /** The fingerprint blocks, by id. */
  class BlockRegistry {
    var blocks: map<int, Block>

    constructor (blocks: map<int, Block>)
      ensures this.blocks == blocks
    {
      this.blocks := blocks;
    }

    /** unblock_selected: unblocks each active selected block and reports
        how many there were. */
    method UnblockSelected(selection: set<int>) returns (count: nat, message: string)
      modifies this
      ensures count == |ActiveSelected(old(blocks), selection)|
      ensures blocks == Unblocked(old(blocks), selection)
      ensures message == IntToString(count) + " fingerprint(s) unblocked."
    {
      var active := ActiveSelected(blocks, selection);
      count := 0;
      var remaining := active;
      while remaining != {}
        invariant remaining <= active
        invariant count + |remaining| == |active|
        invariant blocks == Unblocked(old(blocks), active - remaining)
        decreases |remaining|
      {
        NonEmptyHasElement(remaining);
        var id :| id in remaining;
        UnblockOneMore(old(blocks), active - remaining, id);
        blocks := blocks[id := blocks[id].(isActive := false)];
        assert active - (remaining - {id}) == (active - remaining) + {id};
        remaining := remaining - {id};
        count := count + 1;
      }
      assert active - remaining == active;
      UnblockActiveOnly(old(blocks), selection);
      message := IntToString(count) + " fingerprint(s) unblocked.";
    }
  }
}
