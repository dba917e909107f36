/** The audit-log helper every handler calls: it builds the insert payload
    (a dictionary that carries `deed_id` only when one is given) and inserts
    it through the database-operation helper. */
module Audit {
  import opened Common
  import opened SupabaseUtils
  import opened Store

  /** A value in an insert payload. */
  datatype Field = IntField(i: int) | TextField(t: string)

  const AuditFailedMessage := "Failed to create audit log"

  /** The payload of one audit-log insert. */
  function LogEntry(entityId: int, actionType: string, userId: string, description: string,
                    deedId: Option<int>): (m: map<string, Field>)
    ensures m.Keys == {"action_type", "user_id", "entity_id", "description"}
                      + (if deedId.Some? then {"deed_id"} else {})
    ensures m["action_type"] == TextField(actionType) && m["user_id"] == TextField(userId)
    ensures m["entity_id"] == IntField(entityId) && m["description"] == TextField(description)
    ensures deedId.Some? ==> m["deed_id"] == IntField(deedId.value)
  {
    var base := map["action_type" := TextField(actionType), "user_id" := TextField(userId),
                    "entity_id" := IntField(entityId), "description" := TextField(description)];
    if deedId.Some? then base["deed_id" := IntField(deedId.value)] else base
  }

  /** The row the database stores for a payload: the id and timestamp are
      the database's own, a missing `deed_id` is stored as null, and a payload
      lacking a required column or carrying a value of the wrong type is refused. */
  function RowFromEntry(m: map<string, Field>, id: int, now: int): (r: Option<AuditEntry>)
    ensures r.Some? ==> r.value.id == id && r.value.timestamp == now
    ensures r.Some? ==> (r.value.deedId.Some? <==> "deed_id" in m)
  {
    if "action_type" in m && m["action_type"].TextField?
       && "user_id" in m && m["user_id"].TextField?
       && "entity_id" in m && m["entity_id"].IntField?
       && "description" in m && m["description"].TextField?
       && ("deed_id" in m ==> m["deed_id"].IntField?)
    then
      Some(AuditEntry(id, m["entity_id"].i,
                      if "deed_id" in m then Some(m["deed_id"].i) else None,
                      m["action_type"].t, m["user_id"].t, m["description"].t, now))
    else None
  }

  /** The payload always makes a row, and the row gives back every argument. */
  lemma EntryRoundTrip(entityId: int, actionType: string, userId: string, description: string,
                       deedId: Option<int>, id: int, now: int)
    ensures RowFromEntry(LogEntry(entityId, actionType, userId, description, deedId), id, now)
            == Some(AuditEntry(id, entityId, deedId, actionType, userId, description, now))
  {
    var m := LogEntry(entityId, actionType, userId, description, deedId);
    assert "deed_id" in m <==> deedId.Some?;
  }

  /** Inserts one audit-log row. `failure` is what the database reports for
      the insert (None: it succeeded); a failure is raised through the helper
      and leaves the log as it was. */
  method CreateAuditLog(db: Database, entityId: int, actionType: string, userId: string,
                        description: string, deedId: Option<int>, now: int, failure: Option<Failure>)
    returns (r: Result<()>)
    requires db.Valid()
    modifies db`audit, db`nextId
    ensures db.Valid()
    ensures failure.None? ==> r.Ok? && db.nextId == old(db.nextId) + 1
    ensures failure.None? ==>
      db.audit == old(db.audit) + [AuditEntry(old(db.nextId), entityId, deedId, actionType, userId, description, now)]
    ensures failure.None? ==>
      Appended(old(db.audit), db.audit, [LogLine(entityId, deedId, actionType, userId, description)])
    ensures failure.Some? ==> r == HandleOperation<()>(Failed(failure.value), AuditFailedMessage)
    ensures failure.Some? ==> db.audit == old(db.audit) && db.nextId == old(db.nextId)
  {
    var entry := LogEntry(entityId, actionType, userId, description, deedId);
    match failure {
      case Some(f) =>
        r := HandleOperation<()>(Failed(f), AuditFailedMessage);
      case None =>
        var id := db.FreshId();
        EntryRoundTrip(entityId, actionType, userId, description, deedId, id, now);
        var row := RowFromEntry(entry, id, now).value;
        db.audit := db.audit + [row];
        assert db.audit[..|old(db.audit)|] == old(db.audit);
        r := HandleOperation<()>(Done(()), AuditFailedMessage);
    }
  }
}
