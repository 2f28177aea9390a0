/** The parcel service as a store object: the parcel and user collections
    are fields, and each mutating operation runs its checks one after the
    other, returning at the first that fails, then performs its writes in the
    order parcel.service.ts does. Every method is proved to leave the store
    exactly as the matching function of ParcelLifecycle says, to fail with
    the same error, and to keep the store invariant. */
module ParcelService {
  import opened Common
  import opened UserModel
  import opened ParcelModel
  import opened ParcelValidation
  import opened ParcelLifecycle
  import opened ParcelProperties

  /** What toggleParcelBlock returns: the updated parcel and a message. */
  datatype Toggled = Toggled(parcel: Parcel, message: string)

  class ParcelStore {
    var parcels: map<ParcelId, Parcel>
    var users: map<UserId, User>

    function State(): Db
      reads this
    {
      Db(parcels, users)
    }

    ghost predicate Valid()
      reads this
    {
      Inv(State())
    }

    /** An empty parcel collection beside users that list no parcels yet. */
    constructor (initialUsers: map<UserId, User>)
      requires forall u :: u in initialUsers ==> initialUsers[u].parcels == []
      ensures Valid()
      ensures parcels == map[] && users == initialUsers
    {
      parcels := map[];
      users := initialUsers;
      InitialInv(initialUsers);
    }

    /** createParcel: build the document and let the schema validate it,
        then insert, then push the id onto the receiver's list, then onto the
        sender's. */
    method CreateParcel(d: ParcelDraft, sender: UserId, pid: ParcelId, trackingId: string, now: Time)
      returns (r: Result<Parcel>)
      requires Valid()
      requires pid !in parcels && !TrackingIdUsed(parcels, trackingId)
      modifies this
      ensures Valid()
      ensures var o := Create(old(State()), d, sender, pid, trackingId, now);
        && State() == After(old(State()), o)
        && (r.Err? <==> o.Rejected?) && (r.Err? ==> r.error == o.err)
      ensures r.Ok? ==> pid in parcels && r.value == parcels[pid]
    {
      ghost var before := State();
      CreateKeepsInv(before, d, sender, pid, trackingId, now);
      var p := NewParcel(d, trackingId, sender, [CreateEntry(d, sender, now)], now);
      if !ParcelFieldsValid(p) { return Err(CreateRefused); }
      parcels := parcels[pid := p];
      if d.receiver in users {
        users := users[d.receiver := users[d.receiver].(parcels := users[d.receiver].parcels + [pid])];
      }
      if sender in users {
        users := users[sender := users[sender].(parcels := users[sender].parcels + [pid])];
      }
      return Ok(p);
    }

    /** The first four checks of the owner-side operations, run in order. */
    method CheckOwner(caller: UserId, id: ParcelId, who: Party, denied: string) returns (e: Option<AppError>)
      ensures e == Guard(State(), caller, id, who, denied)
    {
      if caller !in users { return Some(UserNotFound); }
      if id !in parcels { return Some(ParcelNotFound); }
      var p := parcels[id];
      if p.isBlocked { return Some(ParcelBlocked); }
      var owner := if who == Sender then p.sender else p.receiver;
      if owner != caller { return Some(AppError(FORBIDDEN, denied)); }
      return None;
    }

    /** cancelParcel. */
    method CancelParcel(payload: StatusPayload, caller: UserId, id: ParcelId, now: Time) returns (r: Result<Parcel>)
      requires Valid()
      modifies this
      ensures Valid()
      ensures var o := Cancel(old(State()), payload, caller, id, now);
        && State() == After(old(State()), o)
        && (r.Err? <==> o.Rejected?) && (r.Err? ==> r.error == o.err)
      ensures r.Ok? ==> id in parcels && r.value == parcels[id]
    {
      ghost var before := State();
      var e := CheckOwner(caller, id, Sender, "You are not authorized to cancel this parcel.");
      if e.Some? { return Err(e.value); }
      if !Truthy(payload.currentStatus) { return Err(StatusRequired); }
      var p := parcels[id];
      if p.currentStatus == IN_TRANSIT || p.currentStatus == DELIVERED {
        return Err(AppError(FORBIDDEN, CancelStateMessage(p.currentStatus)));
      }
      parcels := parcels[id := p.(currentStatus := REQUESTED, statusLogs := p.statusLogs + [CancelEntry(caller, now)])];
      assert State() == Write(before, id, REQUESTED, p.deliveredAt, CancelEntry(caller, now));
      CancelStep(before, payload, caller, id, now, id);
      return Ok(parcels[id]);
    }

    /** confirmDeliveryParcel. */
    method ConfirmDeliveryParcel(payload: StatusPayload, caller: UserId, id: ParcelId, now: Time) returns (r: Result<Parcel>)
      requires Valid()
      modifies this
      ensures Valid()
      ensures var o := Confirm(old(State()), payload, caller, id, now);
        && State() == After(old(State()), o)
        && (r.Err? <==> o.Rejected?) && (r.Err? ==> r.error == o.err)
      ensures r.Ok? ==> id in parcels && r.value == parcels[id]
    {
      ghost var before := State();
      var e := CheckOwner(caller, id, Receiver, "You are not authorized to confirm delivery for this parcel.");
      if e.Some? { return Err(e.value); }
      if !Truthy(payload.currentStatus) { return Err(StatusRequired); }
      var p := parcels[id];
      if p.currentStatus != IN_TRANSIT {
        return Err(AppError(FORBIDDEN, NotInTransitMessage("marked as 'Delivered'", p.currentStatus)));
      }
      var entry := ConfirmEntry(p, payload, caller, now);
      parcels := parcels[id := p.(currentStatus := DELIVERED, deliveredAt := Some(now),
                                  statusLogs := p.statusLogs + [entry])];
      assert State() == Write(before, id, DELIVERED, Some(now), entry);
      ConfirmStep(before, payload, caller, id, now, id);
      return Ok(parcels[id]);
    }

    /** rescheduleParcel: pushes a log entry only. */
    method RescheduleParcel(newDate: string, caller: UserId, id: ParcelId, now: Time) returns (r: Result<Parcel>)
      requires Valid()
      modifies this
      ensures Valid()
      ensures var o := Reschedule(old(State()), newDate, caller, id, now);
        && State() == After(old(State()), o)
        && (r.Err? <==> o.Rejected?) && (r.Err? ==> r.error == o.err)
      ensures r.Ok? ==> id in parcels && r.value == parcels[id]
    {
      ghost var before := State();
      var e := CheckOwner(caller, id, Receiver, "You are not authorized to reschedule this parcel.");
      if e.Some? { return Err(e.value); }
      var p := parcels[id];
      if p.currentStatus != IN_TRANSIT {
        return Err(AppError(FORBIDDEN, NotInTransitMessage("rescheduled", p.currentStatus)));
      }
      parcels := parcels[id := p.(statusLogs := p.statusLogs + [RescheduleEntry(p, newDate, caller, now)])];
      assert State() == Write(before, id, p.currentStatus, p.deliveredAt, RescheduleEntry(p, newDate, caller, now));
      RescheduleStep(before, newDate, caller, id, now, id);
      return Ok(parcels[id]);
    }

    /** returnParcel. */
    method ReturnParcel(caller: UserId, id: ParcelId, now: Time) returns (r: Result<Parcel>)
      requires Valid()
      modifies this
      ensures Valid()
      ensures var o := Return(old(State()), caller, id, now);
        && State() == After(old(State()), o)
        && (r.Err? <==> o.Rejected?) && (r.Err? ==> r.error == o.err)
      ensures r.Ok? ==> id in parcels && r.value == parcels[id]
    {
      ghost var before := State();
      var e := CheckOwner(caller, id, Receiver, "You are not authorized to return this parcel.");
      if e.Some? { return Err(e.value); }
      var p := parcels[id];
      if p.currentStatus == DELIVERED { return Err(DeliveredNotReturnable); }
      if p.currentStatus != IN_TRANSIT {
        return Err(AppError(FORBIDDEN, NotInTransitMessage("returned", p.currentStatus)));
      }
      parcels := parcels[id := p.(currentStatus := Returned, statusLogs := p.statusLogs + [ReturnEntry(caller, now)])];
      assert State() == Write(before, id, Returned, p.deliveredAt, ReturnEntry(caller, now));
      ReturnStep(before, caller, id, now, id);
      return Ok(parcels[id]);
    }

    /** updateParcelStatus: `deliveredAt` is written only when the new status is DELIVERED. */
    method UpdateParcelStatus(newStatus: Status, admin: UserId, id: ParcelId, note: Option<string>, now: Time)
      returns (r: Result<Parcel>)
      requires Valid() && newStatus.InSchemaEnum()
      modifies this
      ensures Valid()
      ensures var o := UpdateStatus(old(State()), newStatus, admin, id, note, now);
        && State() == After(old(State()), o)
        && (r.Err? <==> o.Rejected?) && (r.Err? ==> r.error == o.err)
      ensures r.Ok? ==> id in parcels && r.value == parcels[id]
    {
      ghost var before := State();
      if admin !in users { return Err(UserNotFound); }
      if id !in parcels { return Err(ParcelNotFound); }
      var p := parcels[id];
      if p.currentStatus == DELIVERED && newStatus != DELIVERED { return Err(AlreadyDelivered); }
      var q := p.(currentStatus := newStatus);
      if newStatus == DELIVERED {
        q := q.(deliveredAt := Some(now));
      }
      q := q.(statusLogs := q.statusLogs + [AdminEntry(newStatus, admin, note, now)]);
      parcels := parcels[id := q];
      UpdateStatusStep(before, newStatus, admin, id, note, now, id);
      return Ok(parcels[id]);
    }

    /** toggleParcelBlock. */
    method ToggleParcelBlock(admin: UserId, id: ParcelId) returns (r: Result<Toggled>)
      requires Valid()
      modifies this
      ensures Valid()
      ensures var o := ToggleBlock(old(State()), admin, id);
        && State() == After(old(State()), o)
        && (r.Err? <==> o.Rejected?) && (r.Err? ==> r.error == o.err)
      ensures r.Ok? ==> (id in parcels && r.value.parcel == parcels[id]
        && r.value.message == ToggleMessage(parcels[id].isBlocked))
    {
      ghost var before := State();
      if admin !in users { return Err(UserNotFound); }
      if id !in parcels { return Err(ParcelNotFound); }
      var newBlockStatus := !parcels[id].isBlocked;
      parcels := parcels[id := parcels[id].(isBlocked := newBlockStatus)];
      ToggleBlockStep(before, admin, id, id);
      return Ok(Toggled(parcels[id], ToggleMessage(newBlockStatus)));
    }
  }
}
