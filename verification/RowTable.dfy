/** The persistent table of resources, and the statements that change it. */
module RowTable {
  import opened Common
  import opened ObjectHandler

  // The codes of `QueueState`: waiting states are positive, each processing
  // state is the negation of its waiting state, all others lie below them.
  const BLOCKED := -6
  const REDIRECTED := -5
  const FETCHED := -4
  const FAILED := -3
  const PROCESSING_PRIORITY := -2
  const PROCESSING := -1
  const WAITING := 1
  const WAITING_PRIORITY := 2

  predicate IsWaiting(state: int) { state == WAITING || state == WAITING_PRIORITY }
  predicate IsProcessing(state: int) { state == PROCESSING || state == PROCESSING_PRIORITY }

  datatype Row = Row(domain: Text, state: int, nextUpdate: Option<int>, updateTime: int, hash: Option<string>,
          aux: Option<Aux>)

  type Table = map<Text, Row>

  /** The two updates made when the database is opened. */
  function Recover(t: Table): Table {
    map u | u in t ::
      if t[u].state == PROCESSING_PRIORITY then t[u].(state := WAITING_PRIORITY)
      else if t[u].state == PROCESSING then t[u].(state := WAITING)
      else t[u]
  }

  /** `INSERT OR IGNORE` */
  function InsertRow(t: Table, uri: Text, row: Row): Table {
    if uri in t then t else t[uri := row]
  }

  function UpdateState(t: Table, uri: Text, state: int): Table {
    if uri in t then t[uri := t[uri].(state := state, nextUpdate := None)] else t
  }

  function UpdateStateTime(t: Table, uri: Text, state: int, now: real, period: real, hash: string): Table {
    if uri in t then
      t[uri := t[uri].(state := state, nextUpdate := Some((now + period).Floor), updateTime := period.Floor,
          hash := Some(hash))]
    else t
  }

  predicate Due(row: Row, now: real) {
    row.state == FETCHED && row.nextUpdate.Some? && row.nextUpdate.value <= now.Floor
  }

  /** `set_next_to_update` */
  function Revive(t: Table, now: real): Table {
    map u | u in t :: if Due(t[u], now) then t[u].(state := WAITING_PRIORITY) else t[u]
  }
}
