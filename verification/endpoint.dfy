/** The emulated endpoint-isolation service: a registry of device records
    keyed by connector id, a status query that completes a pending isolation,
    and an isolation request that starts one. Both calls register an unknown
    id on first sight. */
module SecureEndpoint {

  import opened Wrappers

  /** The isolation states a device record moves through. */
  datatype Isolation = NotIsolated | PendingStart | Isolated

  /** The status string the service reports for each state. */
  function StatusText(i: Isolation): (text: string)
    ensures text == "not_isolated" <==> i == NotIsolated
    ensures text == "pending_start" <==> i == PendingStart
    ensures text == "isolated" <==> i == Isolated
  {
    match i
    case NotIsolated => "not_isolated"
    case PendingStart => "pending_start"
    case Isolated => "isolated"
  }

  /** One device's isolation record. */
  datatype DeviceStatus = DeviceStatus(
    ipAddress: string,
    isIsolated: bool,
    unlockCode: Option<string>,
    status: Isolation)

  /** The unlock code every isolation hands out. */
  const UnlockCode: string := "unlockme"

  /** The API version a full response reports. */
  const ApiVersion: string := "v1.2.0"

  /** The record a device gets when first seen. */
  function NewStatus(ip: string): DeviceStatus {
    DeviceStatus(ip, false, None, NotIsolated)
  }

  /** The service: its base URL and its device records. */
  datatype Endpoint = Endpoint(baseUrl: string, devices: map<string, DeviceStatus>)

  /** A fresh service with no device records. */
  function NewEndpoint(baseUrl: string): Endpoint {
    Endpoint(baseUrl, map[])
  }

  /** A response body. The full form (version, self link and job ids) is
      returned by an isolation request and by the query that completes one;
      the short form carries a comment instead. */
  datatype Response = Response(
    version: Option<string>,
    selfLink: Option<string>,
    available: bool,
    status: string,
    unlockCode: Option<string>,
    comment: Option<string>,
    ccmsMessageGuid: Option<string>,
    ccmsJobGuid: Option<string>)

  /** The self link of a device's isolation resource. */
  function IsolationLink(baseUrl: string, guid: string): string {
    baseUrl + "/" + guid + "/isolation"
  }

  /** The record for `guid`, or the record it gets when first seen. */
  function Lookup(e: Endpoint, guid: string): (d: DeviceStatus)
    ensures guid !in e.devices ==> d == NewStatus(guid)
    ensures guid in e.devices ==> d == e.devices[guid]
  {
    if guid in e.devices then e.devices[guid] else NewStatus(guid)
  }

  /** What a record looks like after a status query: a pending isolation
      completes, anything else stays as it is. */
  function Queried(d: DeviceStatus): (q: DeviceStatus)
    ensures q.ipAddress == d.ipAddress && q.isIsolated == d.isIsolated && q.unlockCode == d.unlockCode
    ensures d.status == PendingStart ==> q.status == Isolated
    ensures d.status != PendingStart ==> q == d
  {
    if d.status == PendingStart then d.(status := Isolated) else d
  }

  /** The status query. It registers an unknown id, completes a pending
      isolation (answering with the full form, a literal unlock code and
      the job ids) and otherwise answers with the record's status and
      unlock code. No other record changes. */
  function GetIsolationStatus(e: Endpoint, guid: string): (result: (Response, Endpoint))
    ensures result.1.baseUrl == e.baseUrl
    ensures result.1.devices == e.devices[guid := Queried(Lookup(e, guid))]
    ensures result.0.available
    ensures result.0.status == StatusText(Queried(Lookup(e, guid)).status)
    ensures Lookup(e, guid).status == PendingStart ==>
              && result.0.version == Some(ApiVersion)
              && result.0.selfLink == Some(IsolationLink(e.baseUrl, guid))
              && result.0.unlockCode == Some(UnlockCode)
              && result.0.comment == None
    ensures Lookup(e, guid).status != PendingStart ==>
              && result.0.version == None
              && result.0.unlockCode == Lookup(e, guid).unlockCode
              && result.0.comment == Some("Isolation status checked")
  {
    var d := Lookup(e, guid);
    var e' := e.(devices := e.devices[guid := Queried(d)]);
    if d.status == PendingStart then
      (Response(Some(ApiVersion), Some(IsolationLink(e.baseUrl, guid)), true, "isolated", Some(UnlockCode),
                None, Some("0e334b24-a9e7-f3db-4197-4eb0057721bf"), Some("1c12f2e2-9300-4891-ba40-ad94fd675418")),
       e')
    else
      (Response(None, None, true, StatusText(d.status), d.unlockCode, Some("Isolation status checked"), None, None),
       e')
  }

  /** What a record looks like after an isolation request. */
  function Isolating(d: DeviceStatus): (q: DeviceStatus)
    ensures q.ipAddress == d.ipAddress
    ensures q.isIsolated && q.unlockCode == Some(UnlockCode) && q.status == PendingStart
  {
    d.(isIsolated := true, status := PendingStart, unlockCode := Some(UnlockCode))
  }

  /** The isolation request. It registers an unknown id, marks the record
      isolated and pending with the unlock code, whatever state it was in,
      and answers with the full form and a comment naming the record's
      address. No other record changes. */
  function IsolateEndpoint(e: Endpoint, guid: string): (result: (Response, Endpoint))
    ensures result.1.baseUrl == e.baseUrl
    ensures result.1.devices == e.devices[guid := Isolating(Lookup(e, guid))]
    ensures result.0.version == Some(ApiVersion)
    ensures result.0.selfLink == Some(IsolationLink(e.baseUrl, guid))
    ensures result.0.status == "pending_start" && result.0.unlockCode == Some(UnlockCode)
    ensures result.0.comment == Some("Isolation on ip address " + Lookup(e, guid).ipAddress + " in progress")
  {
    var d := Isolating(Lookup(e, guid));
    (Response(Some(ApiVersion), Some(IsolationLink(e.baseUrl, guid)), true, StatusText(d.status), d.unlockCode,
              Some("Isolation on ip address " + d.ipAddress + " in progress"), None, None),
     e.(devices := e.devices[guid := d]))
  }

  /** A record is consistent when its flag, unlock code and status agree:
      not isolated with no code, or isolated (pending or complete) with the
      unlock code. */
  predicate Consistent(d: DeviceStatus) {
    if d.status == NotIsolated then !d.isIsolated && d.unlockCode == None
    else d.isIsolated && d.unlockCode == Some(UnlockCode)
  }

  /** Every record is consistent and keyed by its own address. */
  predicate Valid(e: Endpoint) {
    forall guid :: guid in e.devices ==> e.devices[guid].ipAddress == guid && Consistent(e.devices[guid])
  }

  /** Both calls keep every record consistent and keyed by its address. */
  lemma CallsPreserveValid(e: Endpoint, guid: string)
    requires Valid(e)
    ensures Valid(GetIsolationStatus(e, guid).1)
    ensures Valid(IsolateEndpoint(e, guid).1)
  {
  }

  /** On a valid service a query reports exactly the record's isolation
      flag through its status, and the comment of an isolation request names
      the id it was given. */
  lemma ResponsesReflectRecords(e: Endpoint, guid: string)
    requires Valid(e)
    ensures GetIsolationStatus(e, guid).0.status != "not_isolated" <==> Lookup(e, guid).isIsolated
    ensures IsolateEndpoint(e, guid).0.comment == Some("Isolation on ip address " + guid + " in progress")
  {
  }

  /** Once no isolation is pending, a query changes nothing further: asking
      twice gives the same answer and the same records as asking once. */
  lemma QuerySettles(e: Endpoint, guid: string)
    ensures var (r1, e1) := GetIsolationStatus(e, guid);
            var (r2, e2) := GetIsolationStatus(e1, guid);
            e2 == e1 && (Lookup(e, guid).status != PendingStart ==> r2 == r1)
  {
    var e1 := GetIsolationStatus(e, guid).1;
    assert Lookup(e1, guid) == Queried(Lookup(e, guid));
  }

  /** Isolation followed by a query always ends isolated, whatever the
      device's state before, and the query answers "isolated" with the
      unlock code. */
  lemma IsolateThenQuery(e: Endpoint, guid: string)
    ensures var e1 := IsolateEndpoint(e, guid).1;
            var (r, e2) := GetIsolationStatus(e1, guid);
            && r.status == "isolated" && r.unlockCode == Some(UnlockCode)
            && e2.devices[guid].status == Isolated && e2.devices[guid].isIsolated
  {
    var e1 := IsolateEndpoint(e, guid).1;
    assert Lookup(e1, guid) == Isolating(Lookup(e, guid));
  }

  /** The demonstration sequence on a fresh service, query then isolate then
      query, reports "not_isolated", then "pending_start", then "isolated". */
  lemma QueryIsolateQuery(baseUrl: string, ip: string)
    ensures var (r1, e1) := GetIsolationStatus(NewEndpoint(baseUrl), ip);
            var (r2, e2) := IsolateEndpoint(e1, ip);
            var (r3, e3) := GetIsolationStatus(e2, ip);
            && r1.status == "not_isolated" && r1.unlockCode == None
            && r2.status == "pending_start"
            && r2.comment == Some("Isolation on ip address " + ip + " in progress")
            && r3.status == "isolated"
            && e3.devices == map[ip := DeviceStatus(ip, true, Some(UnlockCode), Isolated)]
  {
    var e1 := GetIsolationStatus(NewEndpoint(baseUrl), ip).1;
    assert Lookup(e1, ip) == NewStatus(ip);
    var e2 := IsolateEndpoint(e1, ip).1;
    assert Lookup(e2, ip) == DeviceStatus(ip, true, Some(UnlockCode), PendingStart);
  }
}
