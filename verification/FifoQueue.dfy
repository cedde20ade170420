/** The database object that changes the table of resources. */
module FifoQueueObject {
  import opened Common
  import opened ObjectHandler
  import opened RowTable

  class FifoQueue {
    var rows: Table

    constructor (stored: Table)
      ensures rows == stored
    {
      rows := stored;
    }

    /** `UPDATE queue SET state=<to> WHERE state=<from>` */
    method ChangeStates(from: int, to: int)
      modifies this
      ensures rows.Keys == old(rows).Keys
      ensures forall u :: u in rows ==>
                rows[u] == if old(rows)[u].state == from then old(rows)[u].(state := to) else old(rows)[u]
    {
      rows := map u | u in rows :: if rows[u].state == from then rows[u].(state := to) else rows[u];
    }

    /** The updates on opening the database: one after the other they put every
        processing row back into its own waiting state. */
    method Setup()
      modifies this
      ensures rows == Recover(old(rows))
      ensures forall u :: u in rows ==> !IsProcessing(rows[u].state)
      ensures forall u :: u in rows && IsProcessing(old(rows)[u].state) ==> rows[u].state == -old(rows)[u].state
    {
      ChangeStates(PROCESSING_PRIORITY, WAITING_PRIORITY);
      ChangeStates(PROCESSING, WAITING);
    }

    method Insert(uri: Text, domain: Text, state: int, updateTime: real, aux: Option<Aux>,
            now: real) returns (inserted: bool)
      modifies this
      ensures inserted == (uri !in old(rows))
      ensures rows == InsertRow(old(rows), uri,
          Row(domain, state, Some((now + updateTime).Floor), updateTime.Floor, None, aux))
    {
      inserted := uri !in rows;
      if inserted {
        rows := rows[uri := Row(domain, state, Some((now + updateTime).Floor), updateTime.Floor, None, aux)];
      }
    }

    method UpdateState(uri: Text, state: int) returns (found: bool)
      modifies this
      ensures found == (uri in old(rows)) && rows == RowTable.UpdateState(old(rows), uri, state)
    {
      found := uri in rows;
      if found { rows := rows[uri := rows[uri].(state := state, nextUpdate := None)]; }
    }

    method UpdateStateTime(uri: Text, state: int, updateTime: real, hash: string, now: real) returns (found: bool)
      modifies this
      ensures found == (uri in old(rows))
          && rows == RowTable.UpdateStateTime(old(rows), uri, state, now, updateTime, hash)
    {
      found := uri in rows;
      if found {
        rows := rows[uri := rows[uri].(state := state, nextUpdate := Some((now + updateTime).Floor),
            updateTime := updateTime.Floor, hash := Some(hash))];
      }
    }

    /** Fetched rows that are due wait again; the others stay as they are. */
    method SetNextToUpdate(now: real)
      modifies this
      ensures rows == Revive(old(rows), now)
      ensures forall u :: u in rows && rows[u] != old(rows)[u] ==>
                Due(old(rows)[u], now) && rows[u] == old(rows)[u].(state := WAITING_PRIORITY)
    {
      rows := map u | u in rows :: if Due(rows[u], now) then rows[u].(state := WAITING_PRIORITY) else rows[u];
    }

    /** `get_waiting_domains` */
    method GetWaitingDomains() returns (names: seq<Text>)
      ensures NoDup(names)
      ensures forall n :: n in names <==> exists u :: u in rows && IsWaiting(rows[u].state) && rows[u].domain == n
    {
      names := [];
      var left := rows.Keys;
      while left != {}
        invariant left <= rows.Keys && NoDup(names)
        invariant forall n ::
            n in names
            <==> exists u :: u in rows && u !in left && IsWaiting(rows[u].state) && rows[u].domain == n
        decreases |left|
      {
        var u :| u in left;
        left := left - {u};
        if IsWaiting(rows[u].state) && rows[u].domain !in names { names := names + [rows[u].domain]; }
      }
    }
  }
}
