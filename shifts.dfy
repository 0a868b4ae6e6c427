/** Shift state: which shift a user should see, and the activation of a
    shift that waits for its initial cash. */
module Shifts {
  import opened Common
  import opened Store

  const WaitingStatus := "waiting_initial_cash"
  const OpenStatus := "open"

  // ===== getActiveShift =====

  /** The two queries of the priority rule. */
  datatype Filter = WaitingFor(userId: Option<Id>) | AnyOpen

  /** `opened_by_id = ?` with an absent user matches no row. */
  predicate Selects(f: Filter, s: Shift)
  {
    match f
    case WaitingFor(userId) => s.status == WaitingStatus && userId.Some? && s.openedById == userId.value
    case AnyOpen => s.status == OpenStatus
  }

  predicate AnySelected(shifts: map<Id, Shift>, f: Filter)
  {
    exists id :: id in shifts && Selects(f, shifts[id])
  }

  /** `ORDER BY start_time DESC`: a null start time sorts last. */
  predicate AtLeastAsLate(a: Option<int>, b: Option<int>)
  {
    b.None? || (a.Some? && a.value >= b.value)
  }

  /** `id` is a row the query returns first (`LIMIT 1`); among rows with the
      same start time the datastore may return any. */
  predicate Latest(shifts: map<Id, Shift>, f: Filter, id: Id)
  {
    id in shifts && Selects(f, shifts[id])
    && forall other :: other in shifts && Selects(f, shifts[other]) ==>
         AtLeastAsLate(shifts[id].startTime, shifts[other].startTime)
  }

  /** A selection with at least one row has a first row. */
  lemma {:induction false} LatestExists(shifts: map<Id, Shift>, f: Filter)
    requires AnySelected(shifts, f)
    ensures exists id :: Latest(shifts, f, id)
    decreases |shifts.Keys|
  {
    var k :| k in shifts && Selects(f, shifts[k]);
    var rest := shifts - {k};
    assert |rest.Keys| < |shifts.Keys| by {
      assert rest.Keys == shifts.Keys - {k};
    }
    forall other | other in shifts && other != k ensures other in rest && rest[other] == shifts[other] {
    }
    if AnySelected(rest, f) {
      LatestExists(rest, f);
      var m :| Latest(rest, f, m);
      if AtLeastAsLate(shifts[m].startTime, shifts[k].startTime) {
        assert Latest(shifts, f, m);
      } else {
        forall other | other in rest && Selects(f, rest[other])
          ensures AtLeastAsLate(shifts[k].startTime, shifts[other].startTime)
        {
          assert AtLeastAsLate(rest[m].startTime, rest[other].startTime);
        }
        assert Latest(shifts, f, k);
      }
    } else {
      assert Latest(shifts, f, k);
    }
  }

  /** The `data` of the reply; the listed shift fields are those of the row. */
  datatype ActiveShift = WaitingShift(shift: Shift) | OpenShift(shift: Shift) | NoShift

  /** The caller's latest shift waiting for initial cash, else the latest
      open shift of anyone, else nothing. */
  method GetActiveShift(db: Db, userId: Option<Id>) returns (r: ActiveShift)
    ensures r.WaitingShift? <==> AnySelected(db.shifts, WaitingFor(userId))
    ensures r.OpenShift? <==> !AnySelected(db.shifts, WaitingFor(userId)) && AnySelected(db.shifts, AnyOpen)
    ensures r.WaitingShift? ==> exists id :: Latest(db.shifts, WaitingFor(userId), id) && r.shift == db.shifts[id]
    ensures r.OpenShift? ==> exists id :: Latest(db.shifts, AnyOpen, id) && r.shift == db.shifts[id]
  {
    if AnySelected(db.shifts, WaitingFor(userId)) {
      LatestExists(db.shifts, WaitingFor(userId));
      var id :| Latest(db.shifts, WaitingFor(userId), id);
      return WaitingShift(db.shifts[id]);
    }
    if AnySelected(db.shifts, AnyOpen) {
      LatestExists(db.shifts, AnyOpen);
      var id :| Latest(db.shifts, AnyOpen, id);
      return OpenShift(db.shifts[id]);
    }
    return NoShift;
  }

  // ===== activateShift =====

  const InvalidParameters := "Parámetros inválidos"
  const ShiftNotFound := "Turno no encontrado"
  const NotWaiting := "El turno no está en espera de efectivo inicial"
  const NotTheOpener := "No autorizado para activar este turno"

  datatype ActivateReply =
    | ActivateRejected(status: nat, error: string)
    | Activated(id: Id, openedById: Id, openedByName: string, startTime: Option<int>, initialCash: real)

  /** `SET initial_cash = ?, status = 'open', start_time = COALESCE(start_time, now), is_synced = 1`. */
  function Activate(s: Shift, initialCash: real, now: int): (r: Shift)
    ensures r.status == OpenStatus && r.initialCash == initialCash && r.isSynced
    ensures r.id == s.id && r.openedById == s.openedById && r.openedByName == s.openedByName
    ensures r.startTime.Some? && (s.startTime.Some? ==> r.startTime == s.startTime)
  {
    s.(initialCash := initialCash, status := OpenStatus,
       startTime := if s.startTime.Some? then s.startTime else Some(now), isSynced := true)
  }

  /** Activation opens the shift with the given cash, keeps a start time that
      is already set and otherwise starts it now; the opener is kept. */
  lemma ActivateSpec(s: Shift, initialCash: real, now: int)
    ensures var t := Activate(s, initialCash, now);
      && t.status == OpenStatus && t.initialCash == initialCash && t.isSynced
      && t.id == s.id && t.openedById == s.openedById && t.openedByName == s.openedByName
      && t.closedById == s.closedById && t.endTime == s.endTime
      && (s.startTime.Some? ==> t.startTime == s.startTime)
      && (s.startTime.None? ==> t.startTime == Some(now))
  {
  }

  /** `initialCash` is `None` when the body's `initial_cash` is not a number.
      The guards run in order: parameters, existence, status, ownership. */
  method ActivateShift(db: Db, id: Id, initialCash: Option<real>, userId: Option<Id>, now: int)
    returns (r: ActivateReply)
    modifies db`shifts, db`events
    ensures id == "" || initialCash.None? ==>
      r == ActivateRejected(400, InvalidParameters) && db.shifts == old(db.shifts) && db.events == old(db.events)
    ensures id != "" && initialCash.Some? && id !in old(db.shifts) ==>
      r == ActivateRejected(404, ShiftNotFound) && db.shifts == old(db.shifts) && db.events == old(db.events)
    ensures id != "" && initialCash.Some? && id in old(db.shifts) && old(db.shifts)[id].status != WaitingStatus ==>
      r == ActivateRejected(400, NotWaiting) && db.shifts == old(db.shifts) && db.events == old(db.events)
    ensures id != "" && initialCash.Some? && id in old(db.shifts) && old(db.shifts)[id].status == WaitingStatus
            && (userId.None? || old(db.shifts)[id].openedById != userId.value) ==>
      r == ActivateRejected(403, NotTheOpener) && db.shifts == old(db.shifts) && db.events == old(db.events)
    ensures r.Activated? <==>
      (id != "" && initialCash.Some? && id in old(db.shifts) && old(db.shifts)[id].status == WaitingStatus
       && userId.Some? && old(db.shifts)[id].openedById == userId.value)
    ensures r.Activated? ==>
      var s := old(db.shifts)[id];
      && db.shifts == old(db.shifts)[id := Activate(s, initialCash.value, now)]
      && db.events == old(db.events) + [ShiftChange(id, OpenStatus, s.openedByName)]
      && r == Activated(id, s.openedById, s.openedByName, s.startTime, initialCash.value)
  {
    if id == "" || initialCash.None? {
      return ActivateRejected(400, InvalidParameters);
    }
    if id !in db.shifts {
      return ActivateRejected(404, ShiftNotFound);
    }
    var shift := db.shifts[id];
    if shift.status != WaitingStatus {
      return ActivateRejected(400, NotWaiting);
    }
    if userId.None? || shift.openedById != userId.value {
      return ActivateRejected(403, NotTheOpener);
    }
    db.shifts := db.shifts[id := Activate(shift, initialCash.value, now)];
    db.events := db.events + [ShiftChange(id, OpenStatus, shift.openedByName)];
    r := Activated(id, shift.openedById, shift.openedByName, shift.startTime, initialCash.value);
  }

  /** Only a waiting shift can become open: an open or closed shift is
      refused, and every other shift keeps its state. */
  lemma OnlyWaitingActivates(shifts: map<Id, Shift>, id: Id, initialCash: real, now: int)
    requires id in shifts && shifts[id].status == WaitingStatus
    ensures var after := shifts[id := Activate(shifts[id], initialCash, now)];
      && after.Keys == shifts.Keys
      && (forall other :: other in shifts && other != id ==> after[other] == shifts[other])
      && after[id].status == OpenStatus
      && Selects(AnyOpen, after[id]) && !Selects(WaitingFor(Some(shifts[id].openedById)), after[id])
  {
  }
}
