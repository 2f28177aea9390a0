/** The four parcel payload validators (parcel.validation.ts) as predicates
    over raw payloads, and the parse of an accepted create payload.
    Enum-valued fields arrive as strings. */
module ParcelValidation {
  import opened Common
  import opened UserModel
  import opened ParcelModel

  datatype RawAddress = RawAddress(
    street: string,
    city: string,
    state: Option<string>,
    zipCode: Option<string>,
    country: Option<string>)

  datatype RawReceiverInfo = RawReceiverInfo(name: string, phone: string, address: RawAddress)

  datatype RawParcelInfo = RawParcelInfo(
    kind: string,
    weight: real,
    description: Option<string>,
    value: real)

  datatype RawLog = RawLog(status: Option<string>, location: Option<string>, note: Option<string>)

  /** The create body. `receiver` is read by the service from the body
      although the create validator does not list it. */
  datatype CreateParcelPayload = CreateParcelPayload(
    receiver: UserId,
    receiverInfo: RawReceiverInfo,
    parcelInfo: RawParcelInfo,
    deliveryFee: real,
    statusLogs: Option<seq<RawLog>>)

  /** The body shared by the update, delivery-confirmation and admin
      status-update routes. */
  datatype StatusPayload = StatusPayload(
    currentStatus: Option<string>,
    statusLogs: Option<seq<RawLog>>,
    isBlocked: Option<bool>,
    newDate: Option<string>)

  /** The four-value status enum of the validators. */
  function ParseSchemaStatus(s: string): (r: Option<Status>)
    ensures r.Some? ==> r.value.InSchemaEnum() && r.value.Name() == s
    ensures r.None? ==> forall st: Status :: st.InSchemaEnum() ==> st.Name() != s
  {
    if s == "REQUESTED" then Some(REQUESTED)
    else if s == "APPROVED" then Some(APPROVED)
    else if s == "IN_TRANSIT" then Some(IN_TRANSIT)
    else if s == "DELIVERED" then Some(DELIVERED)
    else None
  }

  function ParseParcelType(s: string): (r: Option<ParcelType>)
    ensures r.Some? ==> r.value.Name() == s
    ensures r.None? ==> forall t: ParcelType :: t.Name() != s
  {
    if s == "DOCUMENT" then Some(DOCUMENT)
    else if s == "PACKAGE" then Some(PACKAGE)
    else if s == "FRAGILE" then Some(FRAGILE)
    else if s == "ELECTRONICS" then Some(ELECTRONICS)
    else None
  }

  /** Every log entry of the payload either omits its status or names one of
      the four statuses. */
  predicate OptionalLogStatuses(logs: Option<seq<RawLog>>)
  {
    logs.None? || forall i :: 0 <= i < |logs.value| ==>
      logs.value[i].status.None? || ParseSchemaStatus(logs.value[i].status.value).Some?
  }

  /** createParcelZodSchema. */
  predicate ValidCreateParcel(p: CreateParcelPayload)
  {
    && ParseParcelType(p.parcelInfo.kind).Some?
    && p.parcelInfo.weight >= MinWeight
    && p.parcelInfo.value >= 0.0
    && p.deliveryFee >= 0.0
    && OptionalLogStatuses(p.statusLogs)
  }

  /** updateParcelZodSchema: every field optional, `currentStatus` included. */
  predicate ValidUpdate(p: StatusPayload)
  {
    && (p.currentStatus.None? || ParseSchemaStatus(p.currentStatus.value).Some?)
    && OptionalLogStatuses(p.statusLogs)
  }

  /** deliveryConfirmationZodSchema: the only accepted status is DELIVERED. */
  predicate ValidDeliveryConfirmation(p: StatusPayload)
  {
    && p.currentStatus == Some(DELIVERED.Name())
    && (p.statusLogs.None? || forall i :: 0 <= i < |p.statusLogs.value| ==>
          p.statusLogs.value[i].status == Some(DELIVERED.Name()))
  }

  /** adminStatusUpdateZodSchema: `currentStatus` required, log statuses required. */
  predicate ValidAdminStatusUpdate(p: StatusPayload)
  {
    && p.currentStatus.Some? && ParseSchemaStatus(p.currentStatus.value).Some?
    && (p.statusLogs.None? || forall i :: 0 <= i < |p.statusLogs.value| ==>
          p.statusLogs.value[i].status.Some? && ParseSchemaStatus(p.statusLogs.value[i].status.value).Some?)
  }

  /** The draft an accepted create payload becomes: the country defaults to
      Bangladesh; the payload's own status logs are dropped (the service
      replaces them). */
  function ParseCreateParcel(p: CreateParcelPayload): (r: Option<ParcelDraft>)
    ensures r.Some? <==> ValidCreateParcel(p)
    ensures r.Some? ==> r.value.receiver == p.receiver
    ensures r.Some? ==> r.value.parcelInfo.kind.Name() == p.parcelInfo.kind
    ensures r.Some? ==> r.value.parcelInfo.weight == p.parcelInfo.weight >= MinWeight
    ensures r.Some? ==> r.value.parcelInfo.value == p.parcelInfo.value >= 0.0
    ensures r.Some? ==> r.value.parcelInfo.description == p.parcelInfo.description
    ensures r.Some? ==> r.value.deliveryFee == p.deliveryFee >= 0.0
    ensures r.Some? ==> r.value.receiverInfo.name == p.receiverInfo.name
    ensures r.Some? ==> r.value.receiverInfo.phone == p.receiverInfo.phone
    ensures r.Some? ==> (var a, a' := r.value.receiverInfo.address, p.receiverInfo.address;
      && a.street == a'.street && a.city == a'.city && a.state == a'.state && a.zipCode == a'.zipCode)
    ensures r.Some? && p.receiverInfo.address.country.None? ==> r.value.receiverInfo.address.country == DefaultCountry
    ensures r.Some? && p.receiverInfo.address.country.Some? ==>
      r.value.receiverInfo.address.country == p.receiverInfo.address.country.value
  {
    if !ValidCreateParcel(p) then None
    else
      var a := p.receiverInfo.address;
      var country := match a.country case Some(c) => c case None => DefaultCountry;
      var info := ParcelInfo(ParseParcelType(p.parcelInfo.kind).value, p.parcelInfo.weight,
                             p.parcelInfo.description, p.parcelInfo.value);
      Some(ParcelDraft(p.receiver,
        ReceiverInfo(p.receiverInfo.name, p.receiverInfo.phone,
                     Address(a.street, a.city, a.state, a.zipCode, country)),
        info, p.deliveryFee))
  }

  /** Status strings the validators accept and status names agree both ways. */
  lemma SchemaStatusRoundTrip(st: Status)
    ensures st.InSchemaEnum() <==> ParseSchemaStatus(st.Name()) == Some(st)
  {
  }

  /** An accepted admin payload carries one of the four statuses, never
      Returned, Rescheduled or Cancelled. */
  lemma AdminPayloadStatusInEnum(p: StatusPayload)
    requires ValidAdminStatusUpdate(p)
    ensures var st := ParseSchemaStatus(p.currentStatus.value);
      st.Some? && st.value.InSchemaEnum()
      && st.value != Returned && st.value != Rescheduled && st.value != Cancelled
  {
  }

  /** A delivery confirmation always carries a current status, so the
      service's "status required" branch is unreachable through that route. */
  lemma DeliveryConfirmationHasStatus(p: StatusPayload)
    requires ValidDeliveryConfirmation(p)
    ensures Truthy(p.currentStatus)
  {
  }

  /** The update validator admits a body without `currentStatus`. */
  lemma UpdateAdmitsMissingStatus()
    ensures ValidUpdate(StatusPayload(None, None, None, None))
  {
  }

  /** A validated create payload whose required strings are present becomes a
      document the schema accepts, given a non-empty tracking id and a first
      log entry in the enum with a location. */
  lemma ValidatedDraftMeetsSchema(p: CreateParcelPayload, trackingId: string, sender: UserId, first: StatusLog, now: Time)
    requires ValidCreateParcel(p)
    requires p.receiverInfo.name != "" && p.receiverInfo.phone != ""
    requires p.receiverInfo.address.street != "" && p.receiverInfo.address.city != ""
    requires p.receiverInfo.address.country != Some("")
    requires trackingId != "" && LogSchemaValid(first)
    ensures ParseCreateParcel(p).Some?
    ensures ParcelSchemaValid(NewParcel(ParseCreateParcel(p).value, trackingId, sender, [first], now))
  {
    var d := ParseCreateParcel(p).value;
    var q := NewParcel(d, trackingId, sender, [first], now);
    assert q.statusLogs == [first];
  }
}
