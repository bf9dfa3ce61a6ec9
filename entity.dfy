/** Entity<TId>: the audited base entity, with the two setters that record
    which user created or last changed it. */
module Entities {
  import opened Common

  /** The audit columns of an entity, with its id. */
  datatype Audit = Audit(id: Guid, createdAt: Day, createdBy: Guid, updatedAt: Option<Day>, updatedBy: Option<Guid>)

  class Entity {
    var id: Guid
    var createdAt: Day
    var createdBy: Guid
    var updatedAt: Option<Day>
    var updatedBy: Option<Guid>

    function AuditOf(): Audit
      reads this
    {
      Audit(id, createdAt, createdBy, updatedAt, updatedBy)
    }

    /** A fresh entity with every field at its C# default. */
    constructor ()
      ensures AuditOf() == Audit(EmptyGuid, 0, EmptyGuid, None, None)
    {
      id, createdAt, createdBy, updatedAt, updatedBy := EmptyGuid, 0, EmptyGuid, None, None;
    }

    /** CriadoPorUsuario: sets CreatedBy and nothing else. */
    method CriadoPorUsuario(userId: Guid)
      modifies this
      ensures AuditOf() == old(AuditOf()).(createdBy := userId)
    {
      createdBy := userId;
    }

    /** AlteradoPorUsuario: sets UpdatedBy and nothing else. */
    method AlteradoPorUsuario(userId: Guid)
      modifies this
      ensures AuditOf() == old(AuditOf()).(updatedBy := Some(userId))
    {
      updatedBy := Some(userId);
    }
  }

  /** Both setters are idempotent: a second call with the same user leaves
      the entity as the first call did. */
  method SettersIdempotent(e: Entity, userId: Guid)
    modifies e
    ensures e.AuditOf() == old(e.AuditOf()).(createdBy := userId, updatedBy := Some(userId))
  {
    e.CriadoPorUsuario(userId);
    ghost var once := e.AuditOf();
    e.CriadoPorUsuario(userId);
    assert e.AuditOf() == once;
    e.AlteradoPorUsuario(userId);
    once := e.AuditOf();
    e.AlteradoPorUsuario(userId);
    assert e.AuditOf() == once;
  }
}
