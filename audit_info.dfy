/**
 * `AuditInfo`: who created and who last changed an entity, and when. The
 * clock reads of `newInstance` and `update` are the `now` parameters.
 */
module Audit {
  import opened Base

  datatype AuditInfo = AuditInfo(createdAt: Instant, createdBy: string, updatedAt: Instant, updatedBy: string)

  /** `AuditInfo.newInstance`: created and last updated by the same actor, at the same instant. */
  function NewInstance(createdBy: string, now: Instant): (a: AuditInfo)
    ensures a.createdBy == a.updatedBy == createdBy
    ensures a.createdAt == a.updatedAt == now
  {
    AuditInfo(now, createdBy, now, createdBy)
  }

  /** `AuditInfo.of`: the four values, stored as given. */
  function Of(createdAt: Instant, createdBy: string, updatedAt: Instant, updatedBy: string): (a: AuditInfo)
    ensures a.createdAt == createdAt && a.createdBy == createdBy
    ensures a.updatedAt == updatedAt && a.updatedBy == updatedBy
  {
    AuditInfo(createdAt, createdBy, updatedAt, updatedBy)
  }

  /**
   * `AuditInfo.update`: a new value that keeps the creation half and
   * records the new actor and instant. The argument, being a value, is
   * not changed.
   */
  function Update(a: AuditInfo, updatedBy: string, now: Instant): (r: AuditInfo)
    ensures r.createdAt == a.createdAt && r.createdBy == a.createdBy
    ensures r.updatedBy == updatedBy && r.updatedAt == now
  {
    a.(updatedAt := now, updatedBy := updatedBy)
  }

  /** Only the latest update is visible: two updates in a row act as the second alone. */
  lemma UpdateUpdate(a: AuditInfo, first: string, t1: Instant, second: string, t2: Instant)
    ensures Update(Update(a, first, t1), second, t2) == Update(a, second, t2)
  {
  }

  /** An update of a new instance keeps its creation half. */
  lemma UpdateKeepsCreation(creator: string, t: Instant, updater: string, t2: Instant)
    ensures Update(NewInstance(creator, t), updater, t2) == Of(t, creator, t2, updater)
  {
  }
}
