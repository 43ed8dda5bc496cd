/**
  Per-key FIFO for pulled records. Each record waits on the completion of the
  record pulled before it for the same key; a key is forgotten once its last
  record is done. A oneshot channel is named by the sequence number of the lane
  that owns its sending half.
*/
module LanesModel {
  import opened Base

  type Key = seq<bv8>

  datatype Lane = Lane(key: Key, seqNo: nat, behind: Option<nat>)

  datatype LaneTable = LaneTable(tails: map<Key, nat>, next: nat) {
    function Enqueued(key: Key): LaneTable {
      LaneTable(tails[key := next], next + 1)
    }

    function LaneFor(key: Key): Lane {
      Lane(key, next, if key in tails then Some(tails[key]) else None)
    }

    function Released(lane: Lane): LaneTable {
      if lane.key in tails && tails[lane.key] == lane.seqNo then this.(tails := tails - {lane.key}) else this
    }
  }

  const NO_LANES := LaneTable(map[], 0)

  class Lanes {
    var tails: map<Key, nat>
    var next: nat

    function Table(): LaneTable
      reads this
    {
      LaneTable(tails, next)
    }

    constructor ()
      ensures Table() == NO_LANES
    {
      tails, next := map[], 0;
    }

    method Enqueue(key: Key) returns (lane: Lane)
      modifies this
      ensures Table() == old(Table()).Enqueued(key) && lane == old(Table()).LaneFor(key)
    {
      var seqNo := next;
      next := next + 1;
      var behind := if key in tails then Some(tails[key]) else None;
      tails := tails[key := seqNo];
      lane := Lane(key, seqNo, behind);
    }

    method Release(lane: Lane)
      modifies this`tails
      ensures Table() == old(Table()).Released(lane)
    {
      if lane.key in tails && tails[lane.key] == lane.seqNo {
        tails := tails - {lane.key};
      }
    }
  }
}
