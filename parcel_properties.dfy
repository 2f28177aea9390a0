/** Properties of the parcel lifecycle across calls: an invariant every
    operation keeps, the append-only history of every parcel, DELIVERED as a
    final status, the effect of the block flag, and the places where the
    service departs from the schema. */
module ParcelProperties {
  import opened Common
  import opened UserModel
  import opened ParcelModel
  import opened ParcelValidation
  import opened ParcelLifecycle

  /** One service call with its inputs. */
  datatype Op =
    | CreateOp(draft: ParcelDraft, sender: UserId, pid: ParcelId, trackingId: string, now: Time)
    | CancelOp(payload: StatusPayload, caller: UserId, id: ParcelId, now: Time)
    | ConfirmOp(payload: StatusPayload, caller: UserId, id: ParcelId, now: Time)
    | RescheduleOp(newDate: string, caller: UserId, id: ParcelId, now: Time)
    | ReturnOp(caller: UserId, id: ParcelId, now: Time)
    | UpdateStatusOp(newStatus: Status, admin: UserId, id: ParcelId, note: Option<string>, now: Time)
    | ToggleBlockOp(admin: UserId, id: ParcelId)

  /** The preconditions the callers guarantee: fresh ids on create, and an
      admin status the validator accepted. */
  predicate Enabled(db: Db, op: Op)
  {
    match op
    case CreateOp(_, _, pid, tid, _) => pid !in db.parcels && !TrackingIdUsed(db.parcels, tid)
    case UpdateStatusOp(st, _, _, _, _) => st.InSchemaEnum()
    case _ => true
  }

  function Step(db: Db, op: Op): Db
    requires Enabled(db, op)
  {
    match op
    case CreateOp(d, sender, pid, tid, now) => After(db, Create(db, d, sender, pid, tid, now))
    case CancelOp(pl, caller, id, now) => After(db, Cancel(db, pl, caller, id, now))
    case ConfirmOp(pl, caller, id, now) => After(db, Confirm(db, pl, caller, id, now))
    case RescheduleOp(date, caller, id, now) => After(db, Reschedule(db, date, caller, id, now))
    case ReturnOp(caller, id, now) => After(db, Return(db, caller, id, now))
    case UpdateStatusOp(st, admin, id, note, now) => After(db, UpdateStatus(db, st, admin, id, note, now))
    case ToggleBlockOp(admin, id) => After(db, ToggleBlock(db, admin, id))
  }

  /** Every call of the sequence meets its precondition in the store it meets. */
  ghost predicate Feasible(db: Db, ops: seq<Op>)
    decreases |ops|
  {
    |ops| == 0 || (Enabled(db, ops[0]) && Feasible(Step(db, ops[0]), ops[1..]))
  }

  ghost function Run(db: Db, ops: seq<Op>): Db
    requires Feasible(db, ops)
    decreases |ops|
  {
    if |ops| == 0 then db else Run(Step(db, ops[0]), ops[1..])
  }

  // ---------------------------------------------------------------------
  // The store invariant

  /** Per parcel: a non-empty log, a delivery time exactly when DELIVERED,
      and never the status values the service only logs or filters on. */
  ghost predicate ParcelInv(p: Parcel)
  {
    && |p.statusLogs| >= 1
    && (p.deliveredAt.Some? <==> p.currentStatus == DELIVERED)
    && p.currentStatus != Cancelled && p.currentStatus != Rescheduled
  }

  /** Tracking ids are unique, every parcel keeps the invariant, users'
      parcel lists reference stored parcels, and every parcel is listed by
      its sender and its receiver when they exist. */
  ghost predicate Inv(db: Db)
  {
    && UniqueTrackingIds(db.parcels)
    && (forall id :: id in db.parcels ==> ParcelInv(db.parcels[id]))
    && (forall u, k :: u in db.users && 0 <= k < |db.users[u].parcels| ==> db.users[u].parcels[k] in db.parcels)
    && (forall id :: id in db.parcels && db.parcels[id].sender in db.users ==>
          id in db.users[db.parcels[id].sender].parcels)
    && (forall id :: id in db.parcels && db.parcels[id].receiver in db.users ==>
          id in db.users[db.parcels[id].receiver].parcels)
  }

  lemma InitialInv(users: map<UserId, User>)
    requires forall u :: u in users ==> users[u].parcels == []
    ensures Inv(Db(map[], users))
  {
  }

  /** A write to one parcel that keeps its record and its own invariant keeps Inv. */
  lemma OneWriteKeepsInv(db: Db, db': Db, id: ParcelId)
    requires Inv(db) && OnlyParcelChanged(db, db', id)
    requires SameRecord(db.parcels[id], db'.parcels[id]) && ParcelInv(db'.parcels[id])
    ensures Inv(db')
  {
    forall a, b | a in db'.parcels && b in db'.parcels && a != b
      ensures db'.parcels[a].trackingId != db'.parcels[b].trackingId
    {
      assert db'.parcels[a].trackingId == db.parcels[a].trackingId;
      assert db'.parcels[b].trackingId == db.parcels[b].trackingId;
    }
  }

  lemma CreateKeepsUniqueTrackingIds(db: Db, d: ParcelDraft, sender: UserId, pid: ParcelId, tid: string, now: Time)
    requires UniqueTrackingIds(db.parcels) && pid !in db.parcels && !TrackingIdUsed(db.parcels, tid)
    requires Create(db, d, sender, pid, tid, now).Done?
    ensures UniqueTrackingIds(Create(db, d, sender, pid, tid, now).db.parcels)
  {
    var r := Create(db, d, sender, pid, tid, now).db;
    forall a, b | a in r.parcels && b in r.parcels && a != b
      ensures r.parcels[a].trackingId != r.parcels[b].trackingId
    {
      if a != pid && b != pid {
        assert r.parcels[a] == db.parcels[a] && r.parcels[b] == db.parcels[b];
      }
    }
  }

  lemma CreateKeepsUserLists(db: Db, d: ParcelDraft, sender: UserId, pid: ParcelId, tid: string, now: Time)
    requires Inv(db) && pid !in db.parcels && !TrackingIdUsed(db.parcels, tid)
    requires Create(db, d, sender, pid, tid, now).Done?
    ensures var r := Create(db, d, sender, pid, tid, now).db;
      forall u, k :: u in r.users && 0 <= k < |r.users[u].parcels| ==> r.users[u].parcels[k] in r.parcels
  {
    var r := Create(db, d, sender, pid, tid, now).db;
    forall u, k | u in r.users && 0 <= k < |r.users[u].parcels|
      ensures r.users[u].parcels[k] in r.parcels
    {
      var before := db.users[u].parcels;
      assert r.users[u].parcels == before + Pushed(u, d.receiver, sender, pid);
      if k < |before| {
        assert r.users[u].parcels[k] == before[k];
      }
    }
  }

  lemma CreateListsParcels(db: Db, d: ParcelDraft, sender: UserId, pid: ParcelId, tid: string, now: Time)
    requires Inv(db) && pid !in db.parcels && !TrackingIdUsed(db.parcels, tid)
    requires Create(db, d, sender, pid, tid, now).Done?
    ensures var r := Create(db, d, sender, pid, tid, now).db;
      && (forall id :: id in r.parcels && r.parcels[id].sender in r.users ==>
            id in r.users[r.parcels[id].sender].parcels)
      && (forall id :: id in r.parcels && r.parcels[id].receiver in r.users ==>
            id in r.users[r.parcels[id].receiver].parcels)
  {
    var r := Create(db, d, sender, pid, tid, now).db;
    forall id, u | id in r.parcels && u in r.users && (u == r.parcels[id].sender || u == r.parcels[id].receiver)
      ensures id in r.users[u].parcels
    {
      var pushed := Pushed(u, d.receiver, sender, pid);
      assert r.users[u].parcels == db.users[u].parcels + pushed;
      if id == pid {
        assert pid in pushed;
      } else {
        assert r.parcels[id] == db.parcels[id];
        assert id in db.users[u].parcels;
      }
    }
  }

  /** Create keeps the invariant, whether the schema accepts the document or not. */
  lemma CreateKeepsInv(db: Db, d: ParcelDraft, sender: UserId, pid: ParcelId, tid: string, now: Time)
    requires Inv(db) && pid !in db.parcels && !TrackingIdUsed(db.parcels, tid)
    ensures Inv(After(db, Create(db, d, sender, pid, tid, now)))
  {
    if Create(db, d, sender, pid, tid, now).Done? {
      CreateKeepsUniqueTrackingIds(db, d, sender, pid, tid, now);
      CreateKeepsUserLists(db, d, sender, pid, tid, now);
      CreateListsParcels(db, d, sender, pid, tid, now);
    }
  }

  lemma StepKeepsInv(db: Db, op: Op)
    requires Inv(db) && Enabled(db, op)
    ensures Inv(Step(db, op))
  {
    match op
    case CreateOp(d, sender, pid, tid, now) => CreateKeepsInv(db, d, sender, pid, tid, now);
    case CancelOp(pl, caller, i, now) => if i in db.parcels { CancelStep(db, pl, caller, i, now, i); }
    case ConfirmOp(pl, caller, i, now) => if i in db.parcels { ConfirmStep(db, pl, caller, i, now, i); }
    case RescheduleOp(date, caller, i, now) => if i in db.parcels { RescheduleStep(db, date, caller, i, now, i); }
    case ReturnOp(caller, i, now) => if i in db.parcels { ReturnStep(db, caller, i, now, i); }
    case UpdateStatusOp(st, admin, i, note, now) => if i in db.parcels { UpdateStatusStep(db, st, admin, i, note, now, i); }
    case ToggleBlockOp(admin, i) => if i in db.parcels { ToggleBlockStep(db, admin, i, i); }
  }

  /** Every sequence of calls keeps the invariant. */
  lemma {:induction false} RunKeepsInv(db: Db, ops: seq<Op>)
    requires Inv(db) && Feasible(db, ops)
    ensures Inv(Run(db, ops))
    decreases |ops|
  {
    if |ops| > 0 {
      StepKeepsInv(db, ops[0]);
      RunKeepsInv(Step(db, ops[0]), ops[1..]);
    }
  }

  // ---------------------------------------------------------------------
  // The audit trail is append-only

  /** `q` is a later version of `p`: same tracking id, parties, contents and
      fee, and `p`'s log is a prefix of `q`'s. */
  predicate Extends(p: Parcel, q: Parcel)
  {
    SameContents(p, q) && p.statusLogs <= q.statusLogs
  }

  /** The calls that append to parcel `id`'s log, when they succeed. */
  predicate Logs(op: Op, id: ParcelId)
  {
    match op
    case CancelOp(_, _, i, _) => i == id
    case ConfirmOp(_, _, i, _) => i == id
    case RescheduleOp(_, _, i, _) => i == id
    case ReturnOp(_, i, _) => i == id
    case UpdateStatusOp(_, _, i, _, _) => i == id
    case _ => false
  }

  /** The call wrote to the store. */
  predicate Succeeded(db: Db, op: Op)
    requires Enabled(db, op)
  {
    match op
    case CreateOp(d, sender, pid, tid, now) => Create(db, d, sender, pid, tid, now).Done?
    case CancelOp(pl, caller, id, now) => Cancel(db, pl, caller, id, now).Done?
    case ConfirmOp(pl, caller, id, now) => Confirm(db, pl, caller, id, now).Done?
    case RescheduleOp(date, caller, id, now) => Reschedule(db, date, caller, id, now).Done?
    case ReturnOp(caller, id, now) => Return(db, caller, id, now).Done?
    case UpdateStatusOp(st, admin, id, note, now) => UpdateStatus(db, st, admin, id, note, now).Done?
    case ToggleBlockOp(admin, id) => ToggleBlock(db, admin, id).Done?
  }

  /** What one call does to parcel `id`, for the lemmas below: it stays,
      keeps its record, extends its log by one entry exactly on a successful
      transition of that parcel, stays DELIVERED once DELIVERED, and stays
      accepted by the schema widened to the statuses the service writes. */
  ghost predicate StepFacts(db: Db, op: Op, id: ParcelId)
    requires Enabled(db, op) && id in db.parcels
  {
    var p := db.parcels[id];
    && id in Step(db, op).parcels
    && var q := Step(db, op).parcels[id];
    && Extends(p, q)
    && |q.statusLogs| == |p.statusLogs| + (if Logs(op, id) && Succeeded(db, op) then 1 else 0)
    && (p.currentStatus == DELIVERED ==> q.currentStatus == DELIVERED)
    && (ParcelWrittenSchemaValid(p) ==> ParcelWrittenSchemaValid(q))
  }

  /** Appending one entry the widened schema accepts to a parcel whose record is kept. */
  lemma AppendFacts(p: Parcel, q: Parcel, e: StatusLog)
    requires SameRecord(p, q) && q.statusLogs == p.statusLogs + [e]
    requires InWrittenEnum(q.currentStatus) && InWrittenEnum(e.status) && e.location != ""
    ensures Extends(p, q) && |q.statusLogs| == |p.statusLogs| + 1
    ensures ParcelWrittenSchemaValid(p) ==> ParcelWrittenSchemaValid(q)
  {
    assert q.statusLogs[..|p.statusLogs|] == p.statusLogs;
    if ParcelWrittenSchemaValid(p) {
      forall k | 0 <= k < |q.statusLogs|
        ensures InWrittenEnum(q.statusLogs[k].status) && q.statusLogs[k].location != ""
      {
        if k < |p.statusLogs| {
          assert q.statusLogs[k] == p.statusLogs[k];
        }
      }
    }
  }

  lemma CancelStep(db: Db, pl: StatusPayload, caller: UserId, i: ParcelId, now: Time, id: ParcelId)
    requires id in db.parcels
    ensures StepFacts(db, CancelOp(pl, caller, i, now), id)
    ensures Inv(db) ==> Inv(Step(db, CancelOp(pl, caller, i, now)))
  {
    var o := Cancel(db, pl, caller, i, now);
    if o.Done? {
      if i == id { AppendFacts(db.parcels[id], o.db.parcels[id], CancelEntry(caller, now)); }
      if Inv(db) { OneWriteKeepsInv(db, o.db, i); }
    }
  }

  lemma ConfirmStep(db: Db, pl: StatusPayload, caller: UserId, i: ParcelId, now: Time, id: ParcelId)
    requires id in db.parcels
    ensures StepFacts(db, ConfirmOp(pl, caller, i, now), id)
    ensures Inv(db) ==> Inv(Step(db, ConfirmOp(pl, caller, i, now)))
  {
    var o := Confirm(db, pl, caller, i, now);
    if o.Done? {
      if i == id { AppendFacts(db.parcels[id], o.db.parcels[id], ConfirmEntry(db.parcels[id], pl, caller, now)); }
      if Inv(db) { OneWriteKeepsInv(db, o.db, i); }
    }
  }

  lemma RescheduleStep(db: Db, date: string, caller: UserId, i: ParcelId, now: Time, id: ParcelId)
    requires id in db.parcels
    ensures StepFacts(db, RescheduleOp(date, caller, i, now), id)
    ensures Inv(db) ==> Inv(Step(db, RescheduleOp(date, caller, i, now)))
  {
    var o := Reschedule(db, date, caller, i, now);
    if o.Done? {
      if i == id { AppendFacts(db.parcels[id], o.db.parcels[id], RescheduleEntry(db.parcels[id], date, caller, now)); }
      if Inv(db) { OneWriteKeepsInv(db, o.db, i); }
    }
  }

  lemma ReturnStep(db: Db, caller: UserId, i: ParcelId, now: Time, id: ParcelId)
    requires id in db.parcels
    ensures StepFacts(db, ReturnOp(caller, i, now), id)
    ensures Inv(db) ==> Inv(Step(db, ReturnOp(caller, i, now)))
  {
    var o := Return(db, caller, i, now);
    if o.Done? {
      if i == id { AppendFacts(db.parcels[id], o.db.parcels[id], ReturnEntry(caller, now)); }
      if Inv(db) { OneWriteKeepsInv(db, o.db, i); }
    }
  }

  lemma UpdateStatusStep(db: Db, st: Status, admin: UserId, i: ParcelId, note: Option<string>, now: Time, id: ParcelId)
    requires st.InSchemaEnum() && id in db.parcels
    ensures StepFacts(db, UpdateStatusOp(st, admin, i, note, now), id)
    ensures Inv(db) ==> Inv(Step(db, UpdateStatusOp(st, admin, i, note, now)))
  {
    var o := UpdateStatus(db, st, admin, i, note, now);
    if o.Done? {
      if i == id { AppendFacts(db.parcels[id], o.db.parcels[id], AdminEntry(st, admin, note, now)); }
      if Inv(db) { OneWriteKeepsInv(db, o.db, i); }
    }
  }

  lemma ToggleBlockStep(db: Db, admin: UserId, i: ParcelId, id: ParcelId)
    requires id in db.parcels
    ensures StepFacts(db, ToggleBlockOp(admin, i), id)
    ensures Inv(db) ==> Inv(Step(db, ToggleBlockOp(admin, i)))
  {
    var o := ToggleBlock(db, admin, i);
    if o.Done? && Inv(db) {
      forall a, b | a in o.db.parcels && b in o.db.parcels && a != b
        ensures o.db.parcels[a].trackingId != o.db.parcels[b].trackingId
      {
        assert o.db.parcels[a].trackingId == db.parcels[a].trackingId;
        assert o.db.parcels[b].trackingId == db.parcels[b].trackingId;
      }
    }
  }

  /** One call's facts about a parcel, whatever the call. */
  lemma {:induction false} StepKeepsFacts(db: Db, op: Op, id: ParcelId)
    requires Enabled(db, op) && id in db.parcels
    ensures StepFacts(db, op, id)
  {
    match op
    case CreateOp(d, sender, pid, tid, now) =>
    case CancelOp(pl, caller, i, now) => CancelStep(db, pl, caller, i, now, id);
    case ConfirmOp(pl, caller, i, now) => ConfirmStep(db, pl, caller, i, now, id);
    case RescheduleOp(date, caller, i, now) => RescheduleStep(db, date, caller, i, now, id);
    case ReturnOp(caller, i, now) => ReturnStep(db, caller, i, now, id);
    case UpdateStatusOp(st, admin, i, note, now) => UpdateStatusStep(db, st, admin, i, note, now, id);
    case ToggleBlockOp(admin, i) => ToggleBlockStep(db, admin, i, id);
  }

  /** One call never removes a parcel, never rewrites its record or its log,
      and appends exactly one entry when it is a successful transition of
      that parcel and none otherwise. */
  lemma StepKeepsHistory(db: Db, op: Op, id: ParcelId)
    requires Enabled(db, op) && id in db.parcels
    ensures id in Step(db, op).parcels
    ensures Extends(db.parcels[id], Step(db, op).parcels[id])
    ensures |Step(db, op).parcels[id].statusLogs| ==
      |db.parcels[id].statusLogs| + (if Logs(op, id) && Succeeded(db, op) then 1 else 0)
  {
    StepKeepsFacts(db, op, id);
  }

  /** Over any sequence of calls every parcel survives with its record, and
      its earlier log is a prefix of its later log. */
  lemma {:induction false} RunKeepsHistory(db: Db, ops: seq<Op>, id: ParcelId)
    requires Feasible(db, ops) && id in db.parcels
    ensures id in Run(db, ops).parcels
    ensures Extends(db.parcels[id], Run(db, ops).parcels[id])
    ensures |Run(db, ops).parcels[id].statusLogs| <= |db.parcels[id].statusLogs| + |ops|
    decreases |ops|
  {
    if |ops| > 0 {
      var db1 := Step(db, ops[0]);
      StepKeepsHistory(db, ops[0], id);
      RunKeepsHistory(db1, ops[1..], id);
    }
  }

  // ---------------------------------------------------------------------
  // DELIVERED is final

  lemma StepKeepsDelivered(db: Db, op: Op, id: ParcelId)
    requires Enabled(db, op) && id in db.parcels && db.parcels[id].currentStatus == DELIVERED
    ensures id in Step(db, op).parcels && Step(db, op).parcels[id].currentStatus == DELIVERED
  {
    StepKeepsFacts(db, op, id);
  }

  /** Once a parcel is DELIVERED no sequence of calls changes its status,
      and (under the invariant) it keeps a delivery time. */
  lemma {:induction false} RunKeepsDelivered(db: Db, ops: seq<Op>, id: ParcelId)
    requires Feasible(db, ops) && id in db.parcels && db.parcels[id].currentStatus == DELIVERED
    ensures id in Run(db, ops).parcels && Run(db, ops).parcels[id].currentStatus == DELIVERED
    ensures Inv(db) ==> Run(db, ops).parcels[id].deliveredAt.Some?
    decreases |ops|
  {
    if |ops| > 0 {
      var db1 := Step(db, ops[0]);
      StepKeepsDelivered(db, ops[0], id);
      RunKeepsDelivered(db1, ops[1..], id);
      if Inv(db) {
        StepKeepsInv(db, ops[0]);
      }
    } else if Inv(db) {
      assert ParcelInv(db.parcels[id]);
    }
  }

  // ---------------------------------------------------------------------
  // The block flag, toggling, and the departures from the schema

  /** A blocked parcel refuses cancel, confirm, reschedule and return with
      FORBIDDEN once caller and parcel exist, whoever the caller is and
      whatever its state. */
  lemma BlockedRefusesOwnerCalls(db: Db, caller: UserId, id: ParcelId, pl: StatusPayload, date: string, now: Time)
    requires caller in db.users && id in db.parcels && db.parcels[id].isBlocked
    ensures Cancel(db, pl, caller, id, now) == Rejected(ParcelBlocked)
    ensures Confirm(db, pl, caller, id, now) == Rejected(ParcelBlocked)
    ensures Reschedule(db, date, caller, id, now) == Rejected(ParcelBlocked)
    ensures Return(db, caller, id, now) == Rejected(ParcelBlocked)
  {
  }

  /** The admin status update does not look at the block flag: a blocked,
      undelivered parcel still changes status. */
  lemma AdminUpdateIgnoresBlock(db: Db, admin: UserId, id: ParcelId, st: Status, note: Option<string>, now: Time)
    requires st.InSchemaEnum() && admin in db.users && id in db.parcels
    requires db.parcels[id].isBlocked && db.parcels[id].currentStatus != DELIVERED
    ensures UpdateStatus(db, st, admin, id, note, now).Done?
    ensures UpdateStatus(db, st, admin, id, note, now).db.parcels[id].currentStatus == st
  {
  }

  /** Toggling twice restores the flag and the whole store. */
  lemma ToggleTwiceRestores(db: Db, admin: UserId, id: ParcelId)
    requires admin in db.users && id in db.parcels
    ensures ToggleBlock(db, admin, id).Done?
    ensures ToggleBlock(ToggleBlock(db, admin, id).db, admin, id) == Done(db)
  {
    var once := ToggleBlock(db, admin, id).db;
    var twice := ToggleBlock(once, admin, id).db;
    assert twice.parcels == db.parcels;
  }

  /** An admin may set DELIVERED again on a DELIVERED parcel, which moves its
      delivery time: the time is not set only once. */
  lemma RedeliveryMovesDeliveredAt(db: Db, admin: UserId, id: ParcelId, note: Option<string>, now: Time)
    requires admin in db.users && id in db.parcels && db.parcels[id].currentStatus == DELIVERED
    requires db.parcels[id].deliveredAt != Some(now)
    ensures UpdateStatus(db, DELIVERED, admin, id, note, now).Done?
    ensures UpdateStatus(db, DELIVERED, admin, id, note, now).db.parcels[id].deliveredAt
      != db.parcels[id].deliveredAt
  {
  }

  /** A successful return stores a status the schema's enum does not admit. */
  lemma ReturnLeavesSchemaEnum(db: Db, caller: UserId, id: ParcelId, now: Time)
    requires Return(db, caller, id, now).Done?
    ensures !Return(db, caller, id, now).db.parcels[id].currentStatus.InSchemaEnum()
    ensures !ParcelSchemaValid(Return(db, caller, id, now).db.parcels[id])
  {
  }

  /** A successful reschedule logs a status the schema's enum does not admit. */
  lemma RescheduleLogsOutsideSchemaEnum(db: Db, date: string, caller: UserId, id: ParcelId, now: Time)
    requires Reschedule(db, date, caller, id, now).Done?
    ensures !LogSchemaValid(Last(Reschedule(db, date, caller, id, now).db.parcels[id].statusLogs))
  {
  }

  /** Create stores a parcel exactly when the declared schema accepts the
      document it was handed, and what it stores is that document. In
      particular the "Unknown" location of the first entry is never stored:
      the schema requires the city it stands in for. */
  lemma CreateMeetsSchema(db: Db, d: ParcelDraft, sender: UserId, pid: ParcelId, tid: string, now: Time)
    requires pid !in db.parcels && !TrackingIdUsed(db.parcels, tid)
    ensures Create(db, d, sender, pid, tid, now).Done? <==> ParcelSchemaValid(CreatedDoc(d, sender, tid, now))
    ensures Create(db, d, sender, pid, tid, now).Done? ==>
      Create(db, d, sender, pid, tid, now).db.parcels[pid] == CreatedDoc(d, sender, tid, now)
    ensures d.receiverInfo.address.city == "" ==> Create(db, d, sender, pid, tid, now).Rejected?
  {
    var q := CreatedDoc(d, sender, tid, now);
    assert q.statusLogs == [CreateEntry(d, sender, now)];
    assert LogSchemaValid(q.statusLogs[0]);
  }

  /** With the enum widened to what the service writes, every transition
      keeps a parcel the widened schema accepts. */
  lemma StepKeepsWrittenSchema(db: Db, op: Op, id: ParcelId)
    requires Enabled(db, op) && id in db.parcels
    requires ParcelWrittenSchemaValid(db.parcels[id])
    ensures id in Step(db, op).parcels && ParcelWrittenSchemaValid(Step(db, op).parcels[id])
  {
    StepKeepsFacts(db, op, id);
  }

  function Last<T>(s: seq<T>): T
    requires |s| > 0
  {
    s[|s| - 1]
  }

  lemma LowerInTransit()
    ensures ToLower(IN_TRANSIT.Name()) == "in_transit"
  {
    var t := ToLower(IN_TRANSIT.Name());
    forall i | 0 <= i < |t| ensures t[i] == "in_transit"[i] { }
  }

  lemma SpaceInTransit()
    ensures ReplaceFirst("in_transit", '_', ' ') == "in transit"
  {
    var t := "in_transit";
    assert FirstIndex(t[2..], '_') == 0;
    assert t[1..][1..] == t[2..];
    assert FirstIndex(t, '_') == 2;
  }

  lemma LowerDelivered()
    ensures ToLower(DELIVERED.Name()) == "delivered"
    ensures '_' !in ToLower(DELIVERED.Name())
  {
    var d := ToLower(DELIVERED.Name());
    forall i | 0 <= i < |d| ensures d[i] == "delivered"[i] { }
  }

  lemma StatusWordsInTransit()
    ensures ReplaceFirst(ToLower(IN_TRANSIT.Name()), '_', ' ') == "in transit"
  {
    LowerInTransit();
    SpaceInTransit();
  }

  lemma StatusWordsDelivered()
    ensures ReplaceFirst(ToLower(DELIVERED.Name()), '_', ' ') == "delivered"
  {
    LowerDelivered();
  }

  /** The cancel refusal is the fixed text around the status in words. */
  lemma CancelMessageWords(s: Status, w: string)
    requires ReplaceFirst(ToLower(s.Name()), '_', ' ') == w
    ensures CancelStateMessage(s) == "Parcel cannot be canceled as it is already " + w + "."
  {
  }

  /** The cancel refusal names the status in words. */
  lemma CancelInTransitMessage()
    ensures CancelStateMessage(IN_TRANSIT) == "Parcel cannot be canceled as it is already in transit."
  {
    StatusWordsInTransit();
    CancelMessageWords(IN_TRANSIT, "in transit");
  }

  lemma CancelDeliveredMessage()
    ensures CancelStateMessage(DELIVERED) == "Parcel cannot be canceled as it is already delivered."
  {
    StatusWordsDelivered();
    CancelMessageWords(DELIVERED, "delivered");
  }

  /** Under the invariant a received parcel is in exactly one of: the
      incoming view, the history view, or returned. In particular no parcel
      is ever Cancelled, so that exclusion in the incoming filter never fires. */
  lemma ReceivedViewsPartition(db: Db, caller: UserId, id: ParcelId)
    requires Inv(db) && id in db.parcels && db.parcels[id].receiver == caller
    ensures var p := db.parcels[id];
      (if IsIncoming(p, caller) then 1 else 0) + (if IsDelivered(p, caller) then 1 else 0)
      + (if p.currentStatus == Returned then 1 else 0) == 1
  {
    assert ParcelInv(db.parcels[id]);
  }
}
