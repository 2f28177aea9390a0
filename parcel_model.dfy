/** Parcel records (parcel.interface.ts) and the parcel schema's defaults,
    minimums, enums and uniqueness (parcel.model.ts). */
module ParcelModel {
  import opened Common
  import opened UserModel

  /** Instants are passed in by the caller; the model never reads a clock. */
  type Time = int

  /** Parcel status. The interface and the schema declare only the first four
      (the schema's enum restricts `currentStatus` and every log entry's
      `status` to them), but the service writes "Returned" as a current status
      and "Rescheduled" as a log status, and filters on "Cancelled". The model
      keeps all seven so the service can be stated as written;
      `InSchemaEnum` marks the four the schema accepts. */
  datatype Status = REQUESTED | APPROVED | IN_TRANSIT | DELIVERED | Returned | Rescheduled | Cancelled
  {
    predicate InSchemaEnum()
    {
      match this
      case REQUESTED | APPROVED | IN_TRANSIT | DELIVERED => true
      case Returned | Rescheduled | Cancelled => false
    }

    /** The string stored for the status. */
    function Name(): string
    {
      match this
      case REQUESTED => "REQUESTED"
      case APPROVED => "APPROVED"
      case IN_TRANSIT => "IN_TRANSIT"
      case DELIVERED => "DELIVERED"
      case Returned => "Returned"
      case Rescheduled => "Rescheduled"
      case Cancelled => "Cancelled"
    }
  }

  datatype ParcelType = DOCUMENT | PACKAGE | FRAGILE | ELECTRONICS
  {
    function Name(): string
    {
      match this
      case DOCUMENT => "DOCUMENT"
      case PACKAGE => "PACKAGE"
      case FRAGILE => "FRAGILE"
      case ELECTRONICS => "ELECTRONICS"
    }
  }

  /** One audit entry. `createdAt` is the instant the entry was appended
      (the sub-schema keeps timestamps; entries are never updated, so the
      update timestamp always equals it and is not kept). */
  datatype StatusLog = StatusLog(
    status: Status,
    location: string,
    note: Option<string>,
    updatedBy: UserId,
    createdAt: Time)

  datatype Address = Address(
    street: string,
    city: string,
    state: Option<string>,
    zipCode: Option<string>,
    country: string)

  datatype ReceiverInfo = ReceiverInfo(name: string, phone: string, address: Address)

  /** Weights and amounts are JavaScript numbers; the model uses reals. */
  datatype ParcelInfo = ParcelInfo(
    kind: ParcelType,
    weight: real,
    description: Option<string>,
    value: real)

  /** A stored parcel: the tracking id is always present (required by the
      schema) and `isBlocked` and `requestedAt` carry their defaults. */
  datatype Parcel = Parcel(
    trackingId: string,
    sender: UserId,
    receiver: UserId,
    receiverInfo: ReceiverInfo,
    parcelInfo: ParcelInfo,
    deliveryFee: real,
    currentStatus: Status,
    statusLogs: seq<StatusLog>,
    isBlocked: bool,
    requestedAt: Time,
    deliveredAt: Option<Time>)

  /** What the creating call hands to the schema: the payload fields without
      the ones the schema fills in. */
  datatype ParcelDraft = ParcelDraft(
    receiver: UserId,
    receiverInfo: ReceiverInfo,
    parcelInfo: ParcelInfo,
    deliveryFee: real)

  const DefaultCountry: string := "Bangladesh"
  const MinWeight: real := 0.1

  /** A log entry the sub-schema accepts: status in the enum, location present. */
  predicate LogSchemaValid(l: StatusLog)
  {
    l.status.InSchemaEnum() && l.location != ""
  }

  /** Required fields present and minimums met. */
  predicate ParcelFieldsValid(p: Parcel)
  {
    && p.trackingId != ""
    && p.receiverInfo.name != "" && p.receiverInfo.phone != ""
    && p.receiverInfo.address.street != "" && p.receiverInfo.address.city != ""
    && p.receiverInfo.address.country != ""
    && p.parcelInfo.weight >= MinWeight
    && p.parcelInfo.value >= 0.0
    && p.deliveryFee >= 0.0
  }

  /** Required fields present, minimums met, status values in the enum. */
  predicate ParcelSchemaValid(p: Parcel)
  {
    && ParcelFieldsValid(p)
    && p.currentStatus.InSchemaEnum()
    && forall i :: 0 <= i < |p.statusLogs| ==> LogSchemaValid(p.statusLogs[i])
  }

  /** The enum the schema needs to admit every status the service writes:
      the four declared ones plus Returned and Rescheduled. */
  predicate InWrittenEnum(s: Status)
  {
    s.InSchemaEnum() || s == Returned || s == Rescheduled
  }

  /** ParcelSchemaValid with the status enum widened to InWrittenEnum. */
  predicate ParcelWrittenSchemaValid(p: Parcel)
  {
    && ParcelFieldsValid(p)
    && InWrittenEnum(p.currentStatus)
    && forall i :: 0 <= i < |p.statusLogs| ==>
         InWrittenEnum(p.statusLogs[i].status) && p.statusLogs[i].location != ""
  }

  /** The unique index on `trackingId`. */
  ghost predicate UniqueTrackingIds(parcels: map<ParcelId, Parcel>)
  {
    forall a, b :: a in parcels && b in parcels && a != b ==> parcels[a].trackingId != parcels[b].trackingId
  }

  predicate TrackingIdUsed(parcels: map<ParcelId, Parcel>, trackingId: string)
  {
    exists id :: id in parcels && parcels[id].trackingId == trackingId
  }

  /** The document the schema stores for a draft: status REQUESTED, not
      blocked, requested now, not delivered. */
  function NewParcel(d: ParcelDraft, trackingId: string, sender: UserId, logs: seq<StatusLog>, now: Time): (p: Parcel)
    ensures p.trackingId == trackingId && p.sender == sender && p.receiver == d.receiver
    ensures p.receiverInfo == d.receiverInfo && p.parcelInfo == d.parcelInfo && p.deliveryFee == d.deliveryFee
    ensures p.statusLogs == logs
    ensures p.currentStatus == REQUESTED && !p.isBlocked && p.requestedAt == now && p.deliveredAt.None?
  {
    Parcel(trackingId, sender, d.receiver, d.receiverInfo, d.parcelInfo, d.deliveryFee,
           REQUESTED, logs, false, now, None)
  }
}
