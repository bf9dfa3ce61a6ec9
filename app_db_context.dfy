/** AppDbContext as a unit of work: one slot for the current database
    transaction, the operations it issues to the database, and the audit
    stamping that runs before every save over the change tracker's entries. */
module DbContexts {
  import opened Common
  import opened Entities

  /** EntityState of a change-tracker entry. */
  datatype EntityState = Unchanged | Added | Modified | Deleted

  /** One change-tracker entry. directEntity says whether the entity's
      runtime type has the generic Entity<> as its immediate base type. */
  datatype TrackedEntry = TrackedEntry(entity: Entity, state: EntityState, directEntity: bool)

  /** The entries OnBeforeSaving selects. */
  predicate Selected(e: TrackedEntry) {
    e.directEntity && (e.state == Added || e.state == Modified || e.state == Deleted)
  }

  /** Selected entries that receive CreatedAt and CreatedBy. */
  predicate StampsCreation(e: TrackedEntry) {
    e.directEntity && e.state == Added
  }

  /** Selected entries in the Modified branch, which the model leaves open. */
  predicate InModifiedBranch(e: TrackedEntry) {
    e.directEntity && e.state == Modified
  }

  function EntitySet(entries: seq<TrackedEntry>): set<Entity> {
    set k | 0 <= k < |entries| :: entries[k].entity
  }

  /** Entities stamped by the first n entries. */
  function StampSetUpTo(entries: seq<TrackedEntry>, n: int): set<Entity> {
    set k | 0 <= k < n && k < |entries| && StampsCreation(entries[k]) :: entries[k].entity
  }

  function StampSet(entries: seq<TrackedEntry>): set<Entity> {
    StampSetUpTo(entries, |entries|)
  }

  function ModifiedSet(entries: seq<TrackedEntry>): set<Entity> {
    set k | 0 <= k < |entries| && InModifiedBranch(entries[k]) :: entries[k].entity
  }

  /** What saving promises about the audit columns: every Added audited
      entity carries the save time and the acting user; entities in no
      selected entry are untouched. Entities in a Modified entry are left
      unspecified. */
  twostate predicate StampedSince(entries: seq<TrackedEntry>, now: Day, userId: Guid)
    reads EntitySet(entries)
  {
    && (forall e :: e in StampSet(entries) ==> e.createdAt == now && e.createdBy == userId)
    && (forall e :: e in StampSet(entries) - ModifiedSet(entries) ==>
          e.AuditOf() == old(e.AuditOf()).(createdAt := now, createdBy := userId))
    && (forall e :: e in EntitySet(entries) - StampSet(entries) - ModifiedSet(entries) ==>
          e.AuditOf() == old(e.AuditOf()))
  }

  /** The entities of the entries that are not Deleted. */
  function LiveSet(entries: seq<TrackedEntry>): set<Entity> {
    set k | 0 <= k < |entries| && entries[k].state != Deleted :: entries[k].entity
  }

  /** How many entries are Deleted. */
  function DeletedCount(entries: seq<TrackedEntry>): nat {
    if entries == [] then 0 else (if entries[0].state == Deleted then 1 else 0) + DeletedCount(entries[1..])
  }

  /** An entry the tracker keeps after accepting: one of the entries that
      were not Deleted, with its state reset. */
  predicate KeptFrom(x: TrackedEntry, entries: seq<TrackedEntry>) {
    exists j :: 0 <= j < |entries| && entries[j].state != Deleted && x == entries[j].(state := Unchanged)
  }

  /** AcceptAllChanges after a successful save: Added and Modified entries
      become Unchanged and Deleted entries leave the tracker. Every entry
      that stays is an entry that was not Deleted, with its state reset;
      one entry stays for each entry that was not Deleted, and the tracked
      entities are exactly those of the entries that were not Deleted. */
  function AcceptAll(entries: seq<TrackedEntry>): (r: seq<TrackedEntry>)
    ensures forall k :: 0 <= k < |r| ==> r[k].state == Unchanged
    ensures forall k :: 0 <= k < |r| ==> !Selected(r[k])
    ensures forall k :: 0 <= k < |r| ==> KeptFrom(r[k], entries)
    ensures |r| + DeletedCount(entries) == |entries|
    ensures EntitySet(r) == LiveSet(entries)
  {
    if entries == [] then []
    else
      var rest := AcceptAll(entries[1..]);
      LiveSetCons(entries);
      KeptFromTail(entries, rest);
      if entries[0].state == Deleted then rest
      else
        EntitySetCons(entries[0].(state := Unchanged), rest);
        [entries[0].(state := Unchanged)] + rest
  }

  lemma LiveSetCons(entries: seq<TrackedEntry>)
    requires entries != []
    ensures LiveSet(entries) == (if entries[0].state == Deleted then {} else {entries[0].entity}) + LiveSet(entries[1..])
  {
    forall e | e in LiveSet(entries[1..]) ensures e in LiveSet(entries) {
      var k :| 0 <= k < |entries[1..]| && entries[1..][k].state != Deleted && entries[1..][k].entity == e;
      assert entries[k + 1] == entries[1..][k];
    }
    forall e | e in LiveSet(entries)
      ensures e in (if entries[0].state == Deleted then {} else {entries[0].entity}) + LiveSet(entries[1..])
    {
      var k :| 0 <= k < |entries| && entries[k].state != Deleted && entries[k].entity == e;
      if k > 0 {
        assert entries[1..][k - 1] == entries[k];
      }
    }
  }

  lemma EntitySetCons(x: TrackedEntry, rest: seq<TrackedEntry>)
    ensures EntitySet([x] + rest) == {x.entity} + EntitySet(rest)
  {
    var r := [x] + rest;
    assert r[0].entity == x.entity;
    forall e | e in EntitySet(rest) ensures e in EntitySet(r) {
      var k :| 0 <= k < |rest| && rest[k].entity == e;
      assert r[k + 1] == rest[k];
    }
    forall e | e in EntitySet(r) ensures e in {x.entity} + EntitySet(rest) {
      var k :| 0 <= k < |r| && r[k].entity == e;
      if k > 0 {
        assert rest[k - 1] == r[k];
      }
    }
  }

  /** An entry kept from the tail of the tracker was kept from the tracker. */
  lemma KeptFromTail(entries: seq<TrackedEntry>, rest: seq<TrackedEntry>)
    requires entries != []
    requires forall k :: 0 <= k < |rest| ==> KeptFrom(rest[k], entries[1..])
    ensures forall k :: 0 <= k < |rest| ==> KeptFrom(rest[k], entries)
  {
    forall k | 0 <= k < |rest| ensures KeptFrom(rest[k], entries) {
      var tail := entries[1..];
      assert KeptFrom(rest[k], tail);
      var j :| 0 <= j < |tail| && tail[j].state != Deleted && rest[k] == tail[j].(state := Unchanged);
      assert entries[j + 1] == tail[j];
    }
  }

  type TxHandle = nat

  /** The calls the context makes to the database. */
  datatype DbOp = BeginTx(tx: TxHandle) | CommitTx(tx: TxHandle) | RollbackTx(tx: TxHandle) | DisposeTx(tx: TxHandle) | SaveChanges

  class AppDbContext {
    var currentTransaction: Option<TxHandle>
    var ops: seq<DbOp>
    var entries: seq<TrackedEntry>
    /** ICurrentUserService.UserId, read when saving. */
    const currentUserId: Option<Guid>

    constructor (currentUserId: Option<Guid>, entries: seq<TrackedEntry>)
      ensures this.currentUserId == currentUserId && this.entries == entries
      ensures currentTransaction == None && ops == []
    {
      this.currentUserId := currentUserId;
      this.entries := entries;
      currentTransaction := None;
      ops := [];
    }

    /** The user recorded in CreatedBy: the current user, or Guid.Empty. */
    function StampUser(): Guid {
      currentUserId.GetOr(EmptyGuid)
    }

    /** OnBeforeSaving. The Modified branch of the source writes values of
        the wrong type into UpdatedAt and UpdatedBy; the model does not write
        them and promises nothing about those entities. */
    method OnBeforeSaving(now: Day)
      modifies EntitySet(entries)
      ensures StampedSince(entries, now, StampUser())
    {
      if !exists k :: 0 <= k < |entries| && Selected(entries[k]) {
        assert forall k :: 0 <= k < |entries| ==> !StampsCreation(entries[k]);
        assert StampSet(entries) == {};
        return;
      }
      var userId := currentUserId.GetOr(EmptyGuid);
      var i := 0;
      while i < |entries|
        invariant 0 <= i <= |entries|
        invariant forall e :: e in StampSetUpTo(entries, i) ==>
                    e.AuditOf() == old(e.AuditOf()).(createdAt := now, createdBy := userId)
        invariant forall e :: e in EntitySet(entries) - StampSetUpTo(entries, i) ==>
                    e.AuditOf() == old(e.AuditOf())
      {
        var entry := entries[i];
        if Selected(entry) {
          match entry.state {
            case Added =>
              entry.entity.createdAt := now;
              entry.entity.createdBy := userId;
            case _ =>
          }
        }
        assert StampSetUpTo(entries, i + 1) ==
               StampSetUpTo(entries, i) + (if StampsCreation(entry) then {entry.entity} else {});
        i := i + 1;
      }
    }

    /** SaveChangesAsync: audit stamping, then the save itself, which may
        fail; on success the tracker accepts all changes. */
    method SaveChangesAsync(now: Day, fault: Option<Exception>) returns (r: Outcome<()>)
      modifies this`ops, this`entries, EntitySet(entries)
      ensures r == FromFault(fault)
      ensures ops == old(ops) + [SaveChanges]
      ensures entries == if fault.None? then AcceptAll(old(entries)) else old(entries)
      ensures StampedSince(old(entries), now, StampUser())
    {
      OnBeforeSaving(now);
      ops := ops + [SaveChanges];
      r := FromFault(fault);
      if fault.None? {
        entries := AcceptAll(entries);
      }
    }

    /** BeginTransactionAsync: `_currentTransaction ??= ...`. An open
        transaction is kept; otherwise a new one is opened, unless opening
        it throws. */
    method BeginTransactionAsync(newTx: TxHandle, fault: Option<Exception>) returns (r: Outcome<()>)
      modifies this`currentTransaction, this`ops
      ensures old(currentTransaction).Some? ==>
                currentTransaction == old(currentTransaction) && ops == old(ops) && r == Returned(())
      ensures old(currentTransaction).None? ==>
                r == FromFault(fault) &&
                currentTransaction == (if fault.None? then Some(newTx) else None) &&
                ops == old(ops) + [BeginTx(newTx)]
    {
      if currentTransaction.None? {
        ops := ops + [BeginTx(newTx)];
        r := FromFault(fault);
        if fault.None? {
          currentTransaction := Some(newTx);
        }
      } else {
        r := Returned(());
      }
    }

    /** CommitTransactionAsync: save, then commit the open transaction if
        there is one; the transaction is disposed in every case. */
    method CommitTransactionAsync(now: Day, saveFault: Option<Exception>, commitFault: Option<Exception>)
      returns (r: Outcome<()>)
      modifies this`currentTransaction, this`ops, this`entries, EntitySet(entries)
      ensures currentTransaction == None
      ensures r == if saveFault.Some? then Threw(saveFault.value)
                   else if old(currentTransaction).Some? && commitFault.Some? then Threw(commitFault.value)
                   else Returned(())
      ensures ops == old(ops) + [SaveChanges]
                   + (if saveFault.None? && old(currentTransaction).Some? then [CommitTx(old(currentTransaction).value)] else [])
                   + (if old(currentTransaction).Some? then [DisposeTx(old(currentTransaction).value)] else [])
      ensures entries == if saveFault.None? then AcceptAll(old(entries)) else old(entries)
      ensures StampedSince(old(entries), now, StampUser())
    {
      r := SaveChangesAsync(now, saveFault);
      if r.Returned? && currentTransaction.Some? {
        ops := ops + [CommitTx(currentTransaction.value)];
        r := FromFault(commitFault);
      }
      DisposeTransaction();
    }

    /** RollbackTransactionAsync: roll back the open transaction if there is
        one, then dispose it in every case. */
    method RollbackTransactionAsync(fault: Option<Exception>) returns (r: Outcome<()>)
      modifies this`currentTransaction, this`ops
      ensures currentTransaction == None
      ensures old(currentTransaction).None? ==> ops == old(ops) && r == Returned(())
      ensures old(currentTransaction).Some? ==>
                r == FromFault(fault) &&
                ops == old(ops) + [RollbackTx(old(currentTransaction).value), DisposeTx(old(currentTransaction).value)]
    {
      r := Returned(());
      if currentTransaction.Some? {
        ops := ops + [RollbackTx(currentTransaction.value)];
        r := FromFault(fault);
      }
      DisposeTransaction();
    }

    /** DisposeTransaction: dispose and clear the slot if it is occupied. */
    method DisposeTransaction()
      modifies this`currentTransaction, this`ops
      ensures currentTransaction == None
      ensures ops == old(ops) + (if old(currentTransaction).Some? then [DisposeTx(old(currentTransaction).value)] else [])
    {
      if currentTransaction.Some? {
        ops := ops + [DisposeTx(currentTransaction.value)];
        currentTransaction := None;
      }
    }
  }
}
