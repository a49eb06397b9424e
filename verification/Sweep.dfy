/** Loops that turn the rows of a table, one by one and in any order, into what they should be. */
module Sweep {
  import opened Wrappers
  import opened ControlPlane

  /** A loop over `rows` that has still to turn each of them into its `after`. */
  ghost function Partly(before: Entries, after: Entries, rows: set<string>): Entries
    requires after.Keys == before.Keys
  {
    map id | id in before :: if id in rows then before[id] else after[id]
  }

  lemma PartlyStarts(before: Entries, after: Entries, rows: set<string>)
    requires after.Keys == before.Keys
    requires forall id | id in before && id !in rows :: after[id] == before[id]
    ensures Partly(before, after, rows) == before
  {
  }

  lemma PartlyAdvances(before: Entries, after: Entries, rows: set<string>, id: string)
    requires after.Keys == before.Keys && id in before
    ensures Partly(before, after, rows)[id := after[id]] == Partly(before, after, rows - {id})
  {
  }

  lemma PartlyEnds(before: Entries, after: Entries)
    requires after.Keys == before.Keys
    ensures Partly(before, after, {}) == after
  {
  }

  lemma UnexpiredIsKept(cfg: Config, e: Entry, now: Time)
    requires !Expired(e.job, now)
    ensures Commit(e, ReclaimChange(cfg, e, now)) == e
  {
  }

  predicate DeliveryExpired(d: Delivery, now: Time) {
    d.status == Sending && d.expiresAt.Some? && d.expiresAt.value <= now
  }

  lemma UnexpiredDeliveryIsKept(cfg: Config, e: Entry, now: Time)
    requires e.delivery.Some? ==> !DeliveryExpired(e.delivery.value, now)
    ensures Commit(e, ReclaimDeliveryChange(cfg, e, now)) == e
  {
  }
}
