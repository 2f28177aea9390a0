/** The parcel lifecycle of parcel.service.ts stated on store values: each
    operation runs its chain of checks and either throws (Rejected) or
    performs its one write (Done). The store class in ParcelService runs the
    same chains step by step and is proved against these functions. */
module ParcelLifecycle {
  import opened Common
  import opened UserModel
  import opened ParcelModel
  import opened ParcelValidation

  /** The two collections the service reads and writes. */
  datatype Db = Db(parcels: map<ParcelId, Parcel>, users: map<UserId, User>)

  datatype Outcome = Rejected(err: AppError) | Done(db: Db)

  /** The store after a call: a rejected call writes nothing. */
  function After(db: Db, o: Outcome): Db
  {
    if o.Done? then o.db else db
  }

  const ParcelNotFound := AppError(NOT_FOUND, "Parcel not found")
  const ParcelBlocked := AppError(FORBIDDEN, "This parcel is blocked and cannot be accessed.")
  const StatusRequired := AppError(BAD_REQUEST, "Current status is required for status update.")

  // ---------------------------------------------------------------------
  // Shared checks

  /** Who owns a parcel for an operation: the sender for cancel, the receiver otherwise. */
  datatype Party = Sender | Receiver

  function PartyOf(p: Parcel, who: Party): UserId
  {
    match who
    case Sender => p.sender
    case Receiver => p.receiver
  }

  /** Checks one to four pass: caller exists, parcel exists, parcel not blocked, caller owns it. */
  predicate MayAct(db: Db, caller: UserId, id: ParcelId, who: Party)
  {
    caller in db.users && id in db.parcels && !db.parcels[id].isBlocked
    && PartyOf(db.parcels[id], who) == caller
  }

  /** The first four checks of cancel, confirm, reschedule and return, in
      the order the service runs them; the first failure is the error. */
  function Guard(db: Db, caller: UserId, id: ParcelId, who: Party, denied: string): (r: Option<AppError>)
    ensures r.None? <==> MayAct(db, caller, id, who)
    ensures caller !in db.users ==> r == Some(UserNotFound)
    ensures caller in db.users && id !in db.parcels ==> r == Some(ParcelNotFound)
    ensures caller in db.users && id in db.parcels && db.parcels[id].isBlocked ==> r == Some(ParcelBlocked)
    ensures (caller in db.users && id in db.parcels && !db.parcels[id].isBlocked
      && PartyOf(db.parcels[id], who) != caller) ==> r == Some(AppError(FORBIDDEN, denied))
  {
    if caller !in db.users then Some(UserNotFound)
    else if id !in db.parcels then Some(ParcelNotFound)
    else if db.parcels[id].isBlocked then Some(ParcelBlocked)
    else if PartyOf(db.parcels[id], who) != caller then Some(AppError(FORBIDDEN, denied))
    else None
  }

  /** The fields no operation writes: tracking id, parties, contents, fee
      and request time. */
  predicate SameContents(p: Parcel, q: Parcel)
  {
    && q.trackingId == p.trackingId && q.sender == p.sender && q.receiver == p.receiver
    && q.receiverInfo == p.receiverInfo && q.parcelInfo == p.parcelInfo
    && q.deliveryFee == p.deliveryFee && q.requestedAt == p.requestedAt
  }

  /** The fields no status write touches: the contents and the block flag. */
  predicate SameRecord(p: Parcel, q: Parcel)
  {
    SameContents(p, q) && q.isBlocked == p.isBlocked
  }

  /** Only parcel `id` was written: users and all other parcels are as before. */
  ghost predicate OnlyParcelChanged(db: Db, db': Db, id: ParcelId)
  {
    && id in db.parcels && id in db'.parcels
    && db'.users == db.users
    && db'.parcels.Keys == db.parcels.Keys
    && forall k :: k in db.parcels && k != id ==> db'.parcels[k] == db.parcels[k]
  }

  /** The single write of a transition: set the status and delivery time and push one entry. */
  function Write(db: Db, id: ParcelId, st: Status, deliveredAt: Option<Time>, e: StatusLog): Db
    requires id in db.parcels
  {
    var p := db.parcels[id];
    db.(parcels := db.parcels[id := p.(currentStatus := st, deliveredAt := deliveredAt,
                                       statusLogs := p.statusLogs + [e])])
  }

  /** `city || fallback`. */
  function CityOr(p: Parcel, fallback: string): string
  {
    OrElse(Some(p.receiverInfo.address.city), fallback)
  }

  // ---------------------------------------------------------------------
  // Create

  function CreateEntry(d: ParcelDraft, sender: UserId, now: Time): StatusLog
  {
    StatusLog(REQUESTED, OrElse(Some(d.receiverInfo.address.city), "Unknown"),
              Some("Parcel has been requested by sender."), sender, now)
  }

  /** `$push` of a parcel id onto a user's `parcels`; a missing user is not updated. */
  function PushParcel(users: map<UserId, User>, u: UserId, pid: ParcelId): map<UserId, User>
  {
    if u in users then users[u := users[u].(parcels := users[u].parcels + [pid])] else users
  }

  /** What createParcel pushes onto user `u`'s list: once as receiver, once as sender. */
  function Pushed(u: UserId, receiver: UserId, sender: UserId, pid: ParcelId): seq<ParcelId>
  {
    (if u == receiver then [pid] else []) + (if u == sender then [pid] else [])
  }

  /** The error `Parcel.create` throws when the document fails the schema's
      required and minimum checks; nothing is written then. */
  const CreateRefused := AppError(BAD_REQUEST, "Parcel validation failed")

  /** The document createParcel hands to `Parcel.create`: the draft with the
      tracking id, the sender and one REQUESTED entry. */
  function CreatedDoc(d: ParcelDraft, sender: UserId, trackingId: string, now: Time): Parcel
  {
    NewParcel(d, trackingId, sender, [CreateEntry(d, sender, now)], now)
  }

  /** createParcel: `Parcel.create` validates the document against the
      schema and either throws, before any user is touched, or inserts it
      with one REQUESTED entry; then the id is pushed onto the receiver's and
      then the sender's list. The parcel id and the tracking id are fresh
      (the store assigns the first; the tracking id must not collide with
      the unique index). */
  function Create(db: Db, d: ParcelDraft, sender: UserId, pid: ParcelId, trackingId: string, now: Time): (r: Outcome)
    requires pid !in db.parcels && !TrackingIdUsed(db.parcels, trackingId)
    ensures r.Done? <==>
      (&& trackingId != ""
       && d.receiverInfo.name != "" && d.receiverInfo.phone != ""
       && d.receiverInfo.address.street != "" && d.receiverInfo.address.city != ""
       && d.receiverInfo.address.country != ""
       && d.parcelInfo.weight >= MinWeight && d.parcelInfo.value >= 0.0 && d.deliveryFee >= 0.0)
    ensures r.Rejected? ==> r.err == CreateRefused
    ensures r.Done? ==> r.db.parcels.Keys == db.parcels.Keys + {pid}
    ensures r.Done? ==> forall k :: k in db.parcels ==> r.db.parcels[k] == db.parcels[k]
    ensures r.Done? ==> (var p := r.db.parcels[pid];
      && p.sender == sender && p.receiver == d.receiver && p.trackingId == trackingId
      && p.receiverInfo == d.receiverInfo && p.parcelInfo == d.parcelInfo && p.deliveryFee == d.deliveryFee
      && p.currentStatus == REQUESTED && !p.isBlocked && p.deliveredAt.None? && p.requestedAt == now
      && |p.statusLogs| == 1 && p.statusLogs[0].status == REQUESTED
      && p.statusLogs[0].updatedBy == sender
      && p.statusLogs[0].location == d.receiverInfo.address.city)
    ensures r.Done? ==> r.db.users.Keys == db.users.Keys
    ensures r.Done? ==> forall u :: u in db.users ==>
      (r.db.users[u] == db.users[u].(parcels := db.users[u].parcels + Pushed(u, d.receiver, sender, pid)))
  {
    var p := CreatedDoc(d, sender, trackingId, now);
    if !ParcelFieldsValid(p) then Rejected(CreateRefused)
    else
      var users := PushParcel(PushParcel(db.users, d.receiver, pid), sender, pid);
      Done(Db(db.parcels[pid := p], users))
  }

  // ---------------------------------------------------------------------
  // Cancel

  function CancelEntry(caller: UserId, now: Time): StatusLog
  {
    StatusLog(REQUESTED, "Sender App", Some("Parcel has been cancelled by sender."), caller, now)
  }

  /** The status lower-cased with its first underscore turned into a space. */
  function CancelStateMessage(s: Status): string
  {
    "Parcel cannot be canceled as it is already " + ReplaceFirst(ToLower(s.Name()), '_', ' ') + "."
  }

  /** cancelParcel: only the sender; the payload must name a status; not once
      in transit or delivered. The status is set back to REQUESTED. */
  function Cancel(db: Db, payload: StatusPayload, caller: UserId, id: ParcelId, now: Time): (r: Outcome)
    ensures r.Done? <==> (MayAct(db, caller, id, Sender) && Truthy(payload.currentStatus)
      && db.parcels[id].currentStatus != IN_TRANSIT && db.parcels[id].currentStatus != DELIVERED)
    ensures !MayAct(db, caller, id, Sender) ==>
      (r == Rejected(Guard(db, caller, id, Sender, "You are not authorized to cancel this parcel.").value))
    ensures MayAct(db, caller, id, Sender) && !Truthy(payload.currentStatus) ==> r == Rejected(StatusRequired)
    ensures (MayAct(db, caller, id, Sender) && Truthy(payload.currentStatus)
      && db.parcels[id].currentStatus in {IN_TRANSIT, DELIVERED}) ==>
      r == Rejected(AppError(FORBIDDEN, CancelStateMessage(db.parcels[id].currentStatus)))
    ensures r.Done? ==> (OnlyParcelChanged(db, r.db, id)
      && var p, q := db.parcels[id], r.db.parcels[id];
      SameRecord(p, q) && q.currentStatus == REQUESTED && q.deliveredAt == p.deliveredAt
      && q.statusLogs == p.statusLogs + [CancelEntry(caller, now)])
  {
    var g := Guard(db, caller, id, Sender, "You are not authorized to cancel this parcel.");
    if g.Some? then Rejected(g.value)
    else if !Truthy(payload.currentStatus) then Rejected(StatusRequired)
    else
      var p := db.parcels[id];
      if p.currentStatus == IN_TRANSIT || p.currentStatus == DELIVERED then
        Rejected(AppError(FORBIDDEN, CancelStateMessage(p.currentStatus)))
      else
        Done(Write(db, id, REQUESTED, p.deliveredAt, CancelEntry(caller, now)))
  }

  // ---------------------------------------------------------------------
  // Confirm delivery

  /** `payload.statusLogs?.[0]?.note`. */
  function FirstNote(payload: StatusPayload): Option<string>
  {
    if payload.statusLogs.Some? && |payload.statusLogs.value| > 0 then payload.statusLogs.value[0].note else None
  }

  function ConfirmEntry(p: Parcel, payload: StatusPayload, caller: UserId, now: Time): StatusLog
  {
    StatusLog(DELIVERED, CityOr(p, "Delivery Address"),
              Some(OrElse(FirstNote(payload), "Parcel has been delivered successfully.")), caller, now)
  }

  function NotInTransitMessage(action: string, s: Status): string
  {
    "Parcel can only be " + action + " if it is currently 'In Transit'. Current status is '" + s.Name() + "'."
  }

  /** confirmDeliveryParcel: only the receiver, only from IN_TRANSIT. */
  function Confirm(db: Db, payload: StatusPayload, caller: UserId, id: ParcelId, now: Time): (r: Outcome)
    ensures r.Done? <==> (MayAct(db, caller, id, Receiver) && Truthy(payload.currentStatus)
      && db.parcels[id].currentStatus == IN_TRANSIT)
    ensures !MayAct(db, caller, id, Receiver) ==>
      (r == Rejected(Guard(db, caller, id, Receiver, "You are not authorized to confirm delivery for this parcel.").value))
    ensures MayAct(db, caller, id, Receiver) && !Truthy(payload.currentStatus) ==> r == Rejected(StatusRequired)
    ensures (MayAct(db, caller, id, Receiver) && Truthy(payload.currentStatus)
      && db.parcels[id].currentStatus != IN_TRANSIT) ==>
      r == Rejected(AppError(FORBIDDEN, NotInTransitMessage("marked as 'Delivered'", db.parcels[id].currentStatus)))
    ensures r.Done? ==> (OnlyParcelChanged(db, r.db, id)
      && var p, q := db.parcels[id], r.db.parcels[id];
      SameRecord(p, q) && q.currentStatus == DELIVERED && q.deliveredAt == Some(now)
      && q.statusLogs == p.statusLogs + [ConfirmEntry(p, payload, caller, now)]
      && q.statusLogs[|p.statusLogs|].status == DELIVERED
      && q.statusLogs[|p.statusLogs|].updatedBy == caller
      && q.statusLogs[|p.statusLogs|].note ==
           Some(if Truthy(FirstNote(payload)) then FirstNote(payload).value else "Parcel has been delivered successfully."))
  {
    var g := Guard(db, caller, id, Receiver, "You are not authorized to confirm delivery for this parcel.");
    if g.Some? then Rejected(g.value)
    else if !Truthy(payload.currentStatus) then Rejected(StatusRequired)
    else
      var p := db.parcels[id];
      if p.currentStatus != IN_TRANSIT then
        Rejected(AppError(FORBIDDEN, NotInTransitMessage("marked as 'Delivered'", p.currentStatus)))
      else
        var e := ConfirmEntry(p, payload, caller, now);
        Done(Write(db, id, DELIVERED, Some(now), e))
  }

  // ---------------------------------------------------------------------
  // Reschedule

  /** The rendered new date is an input (the model has no date formatting). */
  function RescheduleEntry(p: Parcel, newDate: string, caller: UserId, now: Time): StatusLog
  {
    StatusLog(Rescheduled, CityOr(p, "Delivery Address"),
              Some("Parcel delivery rescheduled to " + newDate), caller, now)
  }

  /** rescheduleParcel: only the receiver, only while IN_TRANSIT; a log-only
      event that leaves the status and the delivery time alone. */
  function Reschedule(db: Db, newDate: string, caller: UserId, id: ParcelId, now: Time): (r: Outcome)
    ensures r.Done? <==> MayAct(db, caller, id, Receiver) && db.parcels[id].currentStatus == IN_TRANSIT
    ensures !MayAct(db, caller, id, Receiver) ==>
      (r == Rejected(Guard(db, caller, id, Receiver, "You are not authorized to reschedule this parcel.").value))
    ensures MayAct(db, caller, id, Receiver) && db.parcels[id].currentStatus != IN_TRANSIT ==>
      (r == Rejected(AppError(FORBIDDEN, NotInTransitMessage("rescheduled", db.parcels[id].currentStatus))))
    ensures r.Done? ==> (OnlyParcelChanged(db, r.db, id)
      && var p, q := db.parcels[id], r.db.parcels[id];
      SameRecord(p, q) && q.currentStatus == p.currentStatus && q.deliveredAt == p.deliveredAt
      && q.statusLogs == p.statusLogs + [RescheduleEntry(p, newDate, caller, now)])
  {
    var g := Guard(db, caller, id, Receiver, "You are not authorized to reschedule this parcel.");
    if g.Some? then Rejected(g.value)
    else
      var p := db.parcels[id];
      if p.currentStatus != IN_TRANSIT then
        Rejected(AppError(FORBIDDEN, NotInTransitMessage("rescheduled", p.currentStatus)))
      else
        Done(Write(db, id, p.currentStatus, p.deliveredAt, RescheduleEntry(p, newDate, caller, now)))
  }

  // ---------------------------------------------------------------------
  // Return

  const DeliveredNotReturnable := AppError(BAD_REQUEST, "Delivered parcel can't be returned")

  function ReturnEntry(caller: UserId, now: Time): StatusLog
  {
    StatusLog(Returned, "N/A", Some("Parcel has been returned by receiver"), caller, now)
  }

  /** returnParcel: only the receiver; DELIVERED is refused with BAD_REQUEST
      before the IN_TRANSIT requirement is checked. */
  function Return(db: Db, caller: UserId, id: ParcelId, now: Time): (r: Outcome)
    ensures r.Done? <==> MayAct(db, caller, id, Receiver) && db.parcels[id].currentStatus == IN_TRANSIT
    ensures !MayAct(db, caller, id, Receiver) ==>
      (r == Rejected(Guard(db, caller, id, Receiver, "You are not authorized to return this parcel.").value))
    ensures MayAct(db, caller, id, Receiver) && db.parcels[id].currentStatus == DELIVERED ==>
      (r == Rejected(DeliveredNotReturnable))
    ensures MayAct(db, caller, id, Receiver) && db.parcels[id].currentStatus !in {DELIVERED, IN_TRANSIT} ==>
      (r == Rejected(AppError(FORBIDDEN, NotInTransitMessage("returned", db.parcels[id].currentStatus))))
    ensures r.Done? ==> (OnlyParcelChanged(db, r.db, id)
      && var p, q := db.parcels[id], r.db.parcels[id];
      SameRecord(p, q) && q.currentStatus == Returned && q.deliveredAt == p.deliveredAt
      && q.statusLogs == p.statusLogs + [ReturnEntry(caller, now)])
  {
    var g := Guard(db, caller, id, Receiver, "You are not authorized to return this parcel.");
    if g.Some? then Rejected(g.value)
    else
      var p := db.parcels[id];
      if p.currentStatus == DELIVERED then Rejected(DeliveredNotReturnable)
      else if p.currentStatus != IN_TRANSIT then
        Rejected(AppError(FORBIDDEN, NotInTransitMessage("returned", p.currentStatus)))
      else
        Done(Write(db, id, Returned, p.deliveredAt, ReturnEntry(caller, now)))
  }

  // ---------------------------------------------------------------------
  // Admin status update

  const AlreadyDelivered := AppError(FORBIDDEN, "Cannot change status. Parcel is already delivered.")

  function AdminEntry(newStatus: Status, admin: UserId, note: Option<string>, now: Time): StatusLog
  {
    StatusLog(newStatus, "Admin Office", Some(OrElse(note, "Status updated to " + newStatus.Name())), admin, now)
  }

  /** updateParcelStatus: the admin may set any of the four statuses except
      that a DELIVERED parcel stays DELIVERED. Neither the block flag nor
      ownership is checked. */
  function UpdateStatus(db: Db, newStatus: Status, admin: UserId, id: ParcelId, note: Option<string>, now: Time): (r: Outcome)
    requires newStatus.InSchemaEnum()
    ensures r.Done? <==> (admin in db.users && id in db.parcels
      && (db.parcels[id].currentStatus == DELIVERED ==> newStatus == DELIVERED))
    ensures admin !in db.users ==> r == Rejected(UserNotFound)
    ensures admin in db.users && id !in db.parcels ==> r == Rejected(ParcelNotFound)
    ensures (admin in db.users && id in db.parcels && db.parcels[id].currentStatus == DELIVERED
      && newStatus != DELIVERED) ==> r == Rejected(AlreadyDelivered)
    ensures r.Done? ==> (OnlyParcelChanged(db, r.db, id)
      && var p, q := db.parcels[id], r.db.parcels[id];
      SameRecord(p, q) && q.currentStatus == newStatus
      && q.deliveredAt == (if newStatus == DELIVERED then Some(now) else p.deliveredAt)
      && q.statusLogs == p.statusLogs + [AdminEntry(newStatus, admin, note, now)])
  {
    if admin !in db.users then Rejected(UserNotFound)
    else if id !in db.parcels then Rejected(ParcelNotFound)
    else
      var p := db.parcels[id];
      if p.currentStatus == DELIVERED && newStatus != DELIVERED then Rejected(AlreadyDelivered)
      else
        Done(Write(db, id, newStatus, if newStatus == DELIVERED then Some(now) else p.deliveredAt,
                   AdminEntry(newStatus, admin, note, now)))
  }

  // ---------------------------------------------------------------------
  // Toggle block

  function ToggleMessage(blocked: bool): string
  {
    "Parcel has been " + (if blocked then "blocked" else "unblocked")
  }

  /** toggleParcelBlock: flip the flag; no log entry, no other field. */
  function ToggleBlock(db: Db, admin: UserId, id: ParcelId): (r: Outcome)
    ensures r.Done? <==> admin in db.users && id in db.parcels
    ensures admin !in db.users ==> r == Rejected(UserNotFound)
    ensures admin in db.users && id !in db.parcels ==> r == Rejected(ParcelNotFound)
    ensures r.Done? ==> (OnlyParcelChanged(db, r.db, id)
      && var p, q := db.parcels[id], r.db.parcels[id];
      q.isBlocked == !p.isBlocked && q.(isBlocked := p.isBlocked) == p)
  {
    if admin !in db.users then Rejected(UserNotFound)
    else if id !in db.parcels then Rejected(ParcelNotFound)
    else
      var p := db.parcels[id];
      Done(db.(parcels := db.parcels[id := p.(isBlocked := !p.isBlocked)]))
  }

  // ---------------------------------------------------------------------
  // Read views

  /** getMeParcel's filter. */
  predicate IsSent(p: Parcel, caller: UserId)
  {
    p.sender == caller
  }

  /** incomingParcels' filter: received and not DELIVERED, Returned or Cancelled. */
  predicate IsIncoming(p: Parcel, caller: UserId)
  {
    p.receiver == caller && p.currentStatus !in {DELIVERED, Returned, Cancelled}
  }

  /** deliveryHistoryParcel's filter. */
  predicate IsDelivered(p: Parcel, caller: UserId)
  {
    p.receiver == caller && p.currentStatus == DELIVERED
  }

  function SentIds(db: Db, caller: UserId): set<ParcelId>
  {
    set id | id in db.parcels && IsSent(db.parcels[id], caller)
  }

  function IncomingIds(db: Db, caller: UserId): set<ParcelId>
  {
    set id | id in db.parcels && IsIncoming(db.parcels[id], caller)
  }

  function DeliveredIds(db: Db, caller: UserId): set<ParcelId>
  {
    set id | id in db.parcels && IsDelivered(db.parcels[id], caller)
  }

  /** A listing: unknown caller, then no match, are NOT_FOUND; otherwise the matches. */
  function Listing(db: Db, caller: UserId, hits: set<ParcelId>, none: string): (r: Result<set<ParcelId>>)
    ensures caller !in db.users ==> r == Err(UserNotFound)
    ensures caller in db.users && hits == {} ==> r == Err(AppError(NOT_FOUND, none))
    ensures r.Ok? <==> caller in db.users && hits != {}
    ensures r.Ok? ==> r.value == hits
  {
    if caller !in db.users then Err(UserNotFound)
    else if hits == {} then Err(AppError(NOT_FOUND, none))
    else Ok(hits)
  }

  /** getMeParcel: the caller's sent parcels; none is NOT_FOUND. */
  function MeParcels(db: Db, caller: UserId): (r: Result<set<ParcelId>>)
    ensures r.Ok? <==> caller in db.users && exists id :: id in db.parcels && db.parcels[id].sender == caller
    ensures r.Ok? ==> forall id :: id in r.value <==> id in db.parcels && db.parcels[id].sender == caller
    ensures caller in db.users && r.Err? ==> r.error == AppError(NOT_FOUND, "No parcels found for your account.")
  {
    var hits := SentIds(db, caller);
    assert forall id :: id in db.parcels && db.parcels[id].sender == caller ==> id in hits;
    Listing(db, caller, hits, "No parcels found for your account.")
  }

  /** incomingParcels: received, still on the way; none is NOT_FOUND. */
  function IncomingParcels(db: Db, caller: UserId): (r: Result<set<ParcelId>>)
    ensures r.Ok? <==> caller in db.users && exists id :: id in db.parcels && IsIncoming(db.parcels[id], caller)
    ensures r.Ok? ==> (forall id :: id in r.value <==>
      id in db.parcels && db.parcels[id].receiver == caller
      && db.parcels[id].currentStatus != DELIVERED && db.parcels[id].currentStatus != Returned
      && db.parcels[id].currentStatus != Cancelled)
    ensures caller in db.users && r.Err? ==> r.error == AppError(NOT_FOUND, "No incoming parcel found")
  {
    var hits := IncomingIds(db, caller);
    assert forall id :: id in db.parcels && IsIncoming(db.parcels[id], caller) ==> id in hits;
    Listing(db, caller, hits, "No incoming parcel found")
  }

  /** deliveryHistoryParcel: received and DELIVERED; none is NOT_FOUND. */
  function DeliveryHistory(db: Db, caller: UserId): (r: Result<set<ParcelId>>)
    ensures r.Ok? <==> caller in db.users && exists id :: id in db.parcels && IsDelivered(db.parcels[id], caller)
    ensures r.Ok? ==> (forall id :: id in r.value <==>
      id in db.parcels && db.parcels[id].receiver == caller && db.parcels[id].currentStatus == DELIVERED)
    ensures caller in db.users && r.Err? ==> r.error == AppError(NOT_FOUND, "You have no delivered parcels yet.")
  {
    var hits := DeliveredIds(db, caller);
    assert forall id :: id in db.parcels && IsDelivered(db.parcels[id], caller) ==> id in hits;
    Listing(db, caller, hits, "You have no delivered parcels yet.")
  }

  /** The projection getTrackingParcel returns. */
  datatype Tracking = Tracking(currentStatus: Status, statusLogs: seq<StatusLog>)

  /** getTrackingParcel: any existing caller may look a parcel up by tracking
      id; ownership and the block flag are not checked. */
  ghost function TrackParcel(db: Db, caller: UserId, trackingId: string): (r: Result<Tracking>)
    requires UniqueTrackingIds(db.parcels)
    ensures caller !in db.users ==> r == Err(UserNotFound)
    ensures r.Ok? <==> caller in db.users && TrackingIdUsed(db.parcels, trackingId)
    ensures r.Ok? ==> forall id :: id in db.parcels && db.parcels[id].trackingId == trackingId ==>
      r.value == Tracking(db.parcels[id].currentStatus, db.parcels[id].statusLogs)
    ensures caller in db.users && r.Err? ==>
      (r.error == AppError(NOT_FOUND, "Parcel not found with the provided tracking ID"))
  {
    if caller !in db.users then Err(UserNotFound)
    else if !TrackingIdUsed(db.parcels, trackingId) then
      Err(AppError(NOT_FOUND, "Parcel not found with the provided tracking ID"))
    else
      var id :| id in db.parcels && db.parcels[id].trackingId == trackingId;
      Ok(Tracking(db.parcels[id].currentStatus, db.parcels[id].statusLogs))
  }

  /** statusLogParcel: the log of an unblocked parcel; no user or ownership check. */
  function StatusLogOf(db: Db, id: ParcelId): (r: Result<seq<StatusLog>>)
    ensures id !in db.parcels ==> r == Err(ParcelNotFound)
    ensures id in db.parcels && db.parcels[id].isBlocked ==> r == Err(ParcelBlocked)
    ensures r.Ok? <==> id in db.parcels && !db.parcels[id].isBlocked
    ensures r.Ok? ==> r.value == db.parcels[id].statusLogs
  {
    if id !in db.parcels then Err(ParcelNotFound)
    else if db.parcels[id].isBlocked then Err(ParcelBlocked)
    else Ok(db.parcels[id].statusLogs)
  }
}
