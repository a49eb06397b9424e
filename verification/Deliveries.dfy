/** Which delivery a poll hands out, on the columns: in SQLite (`api_runtime.py`, `claim_delivery`) and in
    Firestore (`firestore_control_plane.py`, `claim_delivery`). */
module Deliveries {
  import opened Wrappers
  import opened ControlPlane
  import Hosted

  /** PENDING, not failed, and its time has come. */
  predicate Due(e: Entry, now: Time) {
    e.delivery.Some? && e.delivery.value.status == Pending && e.delivery.value.failure.None? && e.delivery.value.availableAt <= now
  }

  function At(e: Entry): Time {
    if e.delivery.Some? then e.delivery.value.availableAt else 0.0
  }

  lemma DueIsDeliverable(e: Entry, now: Time)
    ensures Due(e, now) <==> Deliverable(e, now)
  {
  }

  /** SQLite hands out a delivery exactly when one is due once expired claims are swept: the one available
      longest and, among ties, of the job created first. */
  lemma SqliteServesInOrder(cfg: Config, db: Db, now: Time, token: string)
    ensures var ready, r := ReclaimDeliveries(cfg, db.entries, now), ClaimDelivery(cfg, db, now, token);
            && r.Ok?
            && (r.value.1.Some? <==> exists id :: id in ready && Due(ready[id], now))
            && (r.value.1.Some? ==>
                  var id := r.value.1.value.id;
                  && id in ready && Due(ready[id], now)
                  && forall other | other in ready && Due(ready[other], now) ::
                       && At(ready[id]) <= At(ready[other])
                       && (At(ready[id]) == At(ready[other]) ==> ready[id].job.position <= ready[other].job.position))
  {
    hide ReclaimDeliveries, ClaimDeliveryChange, Write;
    var ready := ReclaimDeliveries(cfg, db.entries, now);
    forall id | id in ready ensures Due(ready[id], now) <==> Deliverable(ready[id], now) { DueIsDeliverable(ready[id], now); }
    if id :| id in ready && Due(ready[id], now) {
      Hosted.SomeDeliveryIsFirst(ready, now, id);
    }
    if FirstDelivery(ready, now).Some? {
      assert IsFirstDelivery(ready, now, FirstDelivery(ready, now).value);
    }
  }

  lemma {:induction false} EarliestTurn(h: Hosted.Store, ids: set<string>) returns (id: string)
    requires ids != {} && forall other | other in ids :: other in h.entries && other in h.turns && h.entries[other].delivery.Some?
    ensures id in ids
    ensures forall other | other in ids ::
              && At(h.entries[id]) <= At(h.entries[other])
              && (At(h.entries[id]) == At(h.entries[other]) ==> h.turns[id] <= h.turns[other])
    decreases |ids|
  {
    var one :| one in ids;
    var rest := ids - {one};
    if rest == {} {
      assert ids == {one};
      id := one;
    } else {
      var best := EarliestTurn(h, rest);
      var sooner := At(h.entries[one]) < At(h.entries[best])
                    || (At(h.entries[one]) == At(h.entries[best]) && h.turns[one] <= h.turns[best]);
      id := if sooner then one else best;
    }
  }

  lemma SomeTurnIsNext(h: Hosted.Store, now: Time, candidate: string)
    requires Hosted.TakesTurns(h) && candidate in h.entries && Due(h.entries[candidate], now)
    ensures Hosted.NextTurn(h, now).Some?
  {
    var ids := set id | id in h.entries && Due(h.entries[id], now);
    assert candidate in ids;
    var id := EarliestTurn(h, ids);
    assert Hosted.IsNextTurn(h, now, id);
  }

  lemma SweepKeepsTurns(cfg: Config, h: Hosted.Store, now: Time)
    requires Hosted.TakesTurns(h)
    ensures Hosted.TakesTurns(Hosted.Outbox(cfg, h, now))
  {
    hide RetryDelay;
  }

  /** Firestore likewise, but among ties the one finalized first. */
  lemma FirestoreServesInOrder(cfg: Config, h: Hosted.Store, now: Time, token: string)
    requires Hosted.TakesTurns(h)
    ensures var out, r := Hosted.Outbox(cfg, h, now), Hosted.ClaimDelivery(cfg, h, now, token).1;
            var ready := out.entries;
            && r.Ok?
            && (r.value.Some? <==> exists id :: id in ready && Due(ready[id], now))
            && (r.value.Some? ==>
                  var id := r.value.value.id;
                  && id in ready && Due(ready[id], now) && id in out.turns
                  && forall other | other in ready && Due(ready[other], now) ::
                       && other in out.turns
                       && At(ready[id]) <= At(ready[other])
                       && (At(ready[id]) == At(ready[other]) ==> out.turns[id] <= out.turns[other]))
  {
    SweepKeepsTurns(cfg, h, now);
    hide Hosted.ReclaimDeliveriesByCount, ClaimDeliveryChange, Hosted.Put;
    var out := Hosted.Outbox(cfg, h, now);
    forall id | id in out.entries ensures Due(out.entries[id], now) <==> Deliverable(out.entries[id], now) {
      DueIsDeliverable(out.entries[id], now);
    }
    if id :| id in out.entries && Due(out.entries[id], now) {
      SomeTurnIsNext(out, now, id);
    }
    if Hosted.NextTurn(out, now).Some? {
      assert Hosted.IsNextTurn(out, now, Hosted.NextTurn(out, now).value);
    }
  }
}
