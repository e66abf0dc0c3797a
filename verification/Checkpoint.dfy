/** The journal: one row per node, written a whole barrier at a time, with two read paths. */
module Checkpointing {
  import opened AgyTypes

  datatype Row = Row(
    nodeId: NodeId,
    key: Key,
    epoch: Epoch,
    status: NodeStatus,
    attempt: int,
    remainingRetries: int,
    consumed: Dims,
    envelope: Option<Envelope>)

  type Rows = map<NodeId, Row>

  ghost function AnyOf(s: set<NodeId>): NodeId {
    if s == {} then "" else var x :| x in s; x
  }

  /** Which of several matching rows a query returns first is the database's own choice. */
  type Selector = f: set<NodeId> -> NodeId | forall s: set<NodeId> :: s != {} ==> f(s) in s
    ghost witness (s: set<NodeId>) => AnyOf(s)

  function Matching(rows: Rows, key: Key, epochId: string): set<NodeId> {
    set id | id in rows && rows[id].key == key && rows[id].epoch.id == epochId
  }

  /** The epoch-gated cache read. */
  function LookupIn(select: Selector, rows: Rows, key: Key, epochId: string): (hit: Option<Row>)
    ensures hit.Some? ==> hit.value.key == key && hit.value.epoch.id == epochId
    ensures hit.None? <==> Matching(rows, key, epochId) == {}
  {
    var found := Matching(rows, key, epochId);
    if found == {} then None
    else
      assert select(found) in found;
      Some(rows[select(found)])
  }

  predicate Malformed(entries: seq<Row>) {
    exists i :: 0 <= i < |entries| && entries[i].nodeId == ""
  }

  /** Rows after writing the entries in order, later ones replacing earlier ones. */
  function Written(rows: Rows, entries: seq<Row>): Rows {
    if entries == [] then rows
    else
      var last := entries[|entries| - 1];
      Written(rows, entries[..|entries| - 1])[last.nodeId := last]
  }

  ghost predicate NoneFrom(entries: seq<Row>, i: nat, id: NodeId) {
    forall j :: i <= j < |entries| ==> entries[j].nodeId != id
  }

  /** What a read by node id returns after a write, when the last entry with that id is the one at `i`. */
  lemma {:induction false} ReadsEntry(rows: Rows, entries: seq<Row>, id: NodeId, i: nat)
    requires i < |entries| && entries[i].nodeId == id && NoneFrom(entries, i + 1, id)
    ensures id in Written(rows, entries) && Written(rows, entries)[id] == entries[i]
  {
    var n := |entries| - 1;
    if i < n {
      assert forall j :: 0 <= j < n ==> entries[..n][j] == entries[j];
      ReadsEntry(rows, entries[..n], id, i);
    }
  }

  /** And when no entry has it: what was there before. */
  lemma {:induction false} ReadsOld(rows: Rows, entries: seq<Row>, id: NodeId)
    requires NoneFrom(entries, 0, id)
    ensures id in Written(rows, entries) <==> id in rows
    ensures id in rows ==> Written(rows, entries)[id] == rows[id]
  {
    if entries != [] {
      var n := |entries| - 1;
      assert forall j :: 0 <= j < n ==> entries[..n][j] == entries[j];
      ReadsOld(rows, entries[..n], id);
    }
  }

  lemma {:induction false} LastOrNone(entries: seq<Row>, id: NodeId) returns (last: Option<nat>)
    ensures last.None? ==> NoneFrom(entries, 0, id)
    ensures last.Some? ==> last.value < |entries| && entries[last.value].nodeId == id && NoneFrom(entries, last.value + 1, id)
  {
    if entries == [] {
      last := None;
    } else {
      var n := |entries| - 1;
      if entries[n].nodeId == id {
        last := Some(n);
      } else {
        last := LastOrNone(entries[..n], id);
        assert forall j :: 0 <= j < n ==> entries[..n][j] == entries[j];
      }
    }
  }

  /** What a read by node id returns after a write: the last entry with that id, else the row from before. */
  lemma ReadsLastWritten(rows: Rows, entries: seq<Row>, id: NodeId)
    ensures var r := Written(rows, entries);
            && (id in r <==> id in rows || exists i :: 0 <= i < |entries| && entries[i].nodeId == id)
            && (forall i :: 0 <= i < |entries| && entries[i].nodeId == id && NoneFrom(entries, i + 1, id) ==> r[id] == entries[i])
            && (NoneFrom(entries, 0, id) && id in rows ==> r[id] == rows[id])
  {
    hide Written;
    var last := LastOrNone(entries, id);
    if last.None? {
      ReadsOld(rows, entries, id);
    } else {
      ReadsEntry(rows, entries, id, last.value);
    }
  }

  /** The two reads of a row just written: by node id, and, if no other row of its epoch has its key, by key. */
  lemma ReadsBack(select: Selector, rows: Rows, entry: Row)
    ensures var r := Written(rows, [entry]); entry.nodeId in r && r[entry.nodeId] == entry
    ensures Matching(rows, entry.key, entry.epoch.id) <= {entry.nodeId} ==>
      LookupIn(select, Written(rows, [entry]), entry.key, entry.epoch.id) == Some(entry)
  {
    var r := Written(rows, [entry]);
    assert [entry][..0] == [] && Written(rows, []) == rows;
    assert r == rows[entry.nodeId := entry];
    if Matching(rows, entry.key, entry.epoch.id) <= {entry.nodeId} {
      forall id | id in Matching(r, entry.key, entry.epoch.id) ensures id == entry.nodeId {
        assert id != entry.nodeId ==> id in Matching(rows, entry.key, entry.epoch.id);
      }
      assert entry.nodeId in Matching(r, entry.key, entry.epoch.id);
    }
  }

  class Checkpoint {
    const epochId: string
    const select: Selector
    var rows: Rows

    constructor (epochId: string, select: Selector, rows: Rows)
      ensures this.epochId == epochId && this.select == select && this.rows == rows
    {
      this.epochId := epochId;
      this.select := select;
      this.rows := rows;
    }

    /** All entries land or none does. */
    method CommitBarrier(entries: seq<Row>) returns (ok: bool)
      modifies this
      ensures ok <==> !Malformed(entries)
      ensures rows == if ok then Written(old(rows), entries) else old(rows)
    {
      var draft := rows;
      for i := 0 to |entries|
        invariant rows == old(rows)
        invariant draft == Written(rows, entries[..i])
        invariant forall j :: 0 <= j < i ==> entries[j].nodeId != ""
      {
        if entries[i].nodeId == "" {
          return false;
        }
        assert entries[..i + 1][..i] == entries[..i];
        draft := draft[entries[i].nodeId := entries[i]];
      }
      assert entries[..|entries|] == entries;
      rows := draft;
      ok := true;
    }

    method Lookup(key: Key) returns (hit: Option<Row>)
      ensures hit == LookupIn(select, rows, key, epochId)
    {
      var found := set id | id in rows && rows[id].key == key && rows[id].epoch.id == epochId;
      if found == {} {
        hit := None;
      } else {
        assert select(found) in found;
        hit := Some(rows[select(found)]);
      }
    }

    /** The epoch-agnostic runtime read. */
    method GetRuntime(id: NodeId) returns (row: Option<Row>)
      ensures row == if id in rows then Some(rows[id]) else None
    {
      row := if id in rows then Some(rows[id]) else None;
    }
  }
}
