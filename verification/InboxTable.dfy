/** The `webhooks_inbound` table and the four statements the webhook code
    issues against it, each as a function from one table to the next. */
module InboxTable {
  import opened Prelude

  datatype Source = SHOPIFY | CLERK | SLACK | N8N

  datatype Key = Key(source: Source, externalId: string)

  datatype Status = RECEIVED | PROCESSING | PROCESSED | FAILED

  /** One delivery of an event: the input of a claim. */
  datatype Delivery = Delivery(key: Key, tenantId: Option<string>, payload: string, headers: string)

  datatype Row = Row(
    tenantId: Option<string>,
    payload: string,
    headers: string,
    signatureValid: bool,
    status: Status,
    processedAt: Option<nat>)

  type Table = map<Key, Row>

  function Inserted(t: Table, d: Delivery): Table {
    t[d.key := Row(d.tenantId, d.payload, d.headers, true, PROCESSING, None)]
  }

  predicate Reclaimable(t: Table, k: Key) {
    k in t && t[k].status == FAILED
  }

  /** The guarded update. An undefined `tenantId` leaves the column as it was. */
  function Reclaimed(t: Table, d: Delivery): Table
    requires d.key in t
  {
    var row := t[d.key];
    t[d.key := row.(tenantId := if d.tenantId.Some? then d.tenantId else row.tenantId,
                    payload := d.payload, headers := d.headers,
                    status := PROCESSING, processedAt := None)]
  }

  function MarkedFailed(t: Table, k: Key): Table
    requires k in t
  {
    t[k := t[k].(status := FAILED)]
  }

  function MarkedProcessed(t: Table, k: Key, now: nat): Table
    requires k in t
  {
    t[k := t[k].(status := PROCESSED, processedAt := Some(now))]
  }

  datatype Insert = Created | UniqueViolation | InsertFault

  /** The table as the database holds it. A statement may abort, or commit
      while its answer is lost. */
  class WebhookInboundEvents {
    var rows: Table

    constructor ()
      ensures rows == map[]
    {
      rows := map[];
    }

    method Create(d: Delivery, fate: Fate) returns (r: Insert)
      modifies this
      ensures r == if !fate.Heard? then InsertFault else if d.key in old(rows) then UniqueViolation else Created
      ensures rows == if fate.Aborted? || d.key in old(rows) then old(rows) else Inserted(old(rows), d)
    {
      if fate.Aborted? { return InsertFault; }
      if d.key in rows { return if fate.Heard? then UniqueViolation else InsertFault; }
      rows := rows[d.key := Row(d.tenantId, d.payload, d.headers, true, PROCESSING, None)];
      r := if fate.Heard? then Created else InsertFault;
    }

    /** `updateMany` guarded by status FAILED; the count of rows it touched. */
    method ReclaimFailed(d: Delivery, fate: Fate) returns (count: Option<nat>)
      modifies this
      ensures count == if !fate.Heard? then None else if Reclaimable(old(rows), d.key) then Some(1) else Some(0)
      ensures rows == if !fate.Aborted? && Reclaimable(old(rows), d.key) then Reclaimed(old(rows), d) else old(rows)
    {
      if fate.Aborted? { return None; }
      if d.key !in rows || rows[d.key].status != FAILED { return if fate.Heard? then Some(0) else None; }
      var row := rows[d.key];
      var tenantId := row.tenantId;
      if d.tenantId.Some? { tenantId := d.tenantId; }
      rows := rows[d.key := Row(tenantId, d.payload, d.headers, row.signatureValid, PROCESSING, None)];
      count := if fate.Heard? then Some(1) else None;
    }

    /** Updating by the unique key throws when there is no such row. */
    method SetFailed(k: Key, fate: Fate) returns (ok: bool)
      modifies this
      ensures ok == (fate.Heard? && k in old(rows))
      ensures rows == if !fate.Aborted? && k in old(rows) then MarkedFailed(old(rows), k) else old(rows)
    {
      if fate.Aborted? || k !in rows { return false; }
      rows := rows[k := rows[k].(status := FAILED)];
      ok := fate.Heard?;
    }

    method SetProcessed(k: Key, now: nat, fate: Fate) returns (ok: bool)
      modifies this
      ensures ok == (fate.Heard? && k in old(rows))
      ensures rows == if !fate.Aborted? && k in old(rows) then MarkedProcessed(old(rows), k, now) else old(rows)
    {
      if fate.Aborted? || k !in rows { return false; }
      rows := rows[k := rows[k].(status := PROCESSED, processedAt := Some(now))];
      ok := fate.Heard?;
    }
  }
}
