/**
 * The REST API's value types and their helpers: the readable forms of a
 * device, a tailnet and an auth key, the online and expiry tests against a
 * clock, the filters over device and key lists, and the API error with its
 * status tests.
 *
 * Times are integers in nanoseconds and the current time is a parameter.
 * Only the fields the helpers read are kept.
 */
module DeviceTypes {
  import opened Text

  const Minute: int := 60_000_000_000

  datatype Device = Device(id: string, name: string, hostname: string, authorized: bool, lastSeen: int)

  /** The status word of Device.String. */
  function DeviceStatus(d: Device): (r: string)
    ensures r == "authorized" <==> d.authorized
    ensures r == "authorized" || r == "unauthorized"
  {
    if d.authorized then "authorized" else "unauthorized"
  }

  /** Device.String */
  function DeviceString(d: Device): string {
    "Device{Name: " + d.name + ", ID: " + d.id + ", Status: " + DeviceStatus(d) + "}"
  }

  /** IsOnline: seen less than five minutes before `now`. */
  predicate IsOnline(d: Device, now: int) {
    now - d.lastSeen < 5 * Minute
  }

  datatype TailnetInfo = TailnetInfo(name: string, accountId: string)

  /** TailnetInfo.String */
  function TailnetString(t: TailnetInfo): string {
    "Tailnet{Name: " + t.name + ", AccountID: " + t.accountId + "}"
  }

  datatype AuthKey = AuthKey(id: string, description: string, expires: int, revoked: bool)

  /** IsExpired: `now` is after the expiry time. */
  predicate IsExpired(k: AuthKey, now: int) {
    now > k.expires
  }

  /** IsValid: neither revoked nor expired. */
  predicate IsValid(k: AuthKey, now: int) {
    !k.revoked && !IsExpired(k, now)
  }

  /** The status word of AuthKey.String: revoked first, then expired, else valid. */
  function KeyStatus(k: AuthKey, now: int): (r: string)
    ensures r == "valid" <==> IsValid(k, now)
    ensures r == "revoked" <==> k.revoked
    ensures r == "expired" <==> !k.revoked && IsExpired(k, now)
  {
    if k.revoked then "revoked" else if IsExpired(k, now) then "expired" else "valid"
  }

  /** AuthKey.String */
  function KeyString(k: AuthKey, now: int): string {
    "AuthKey{ID: " + k.id + ", Description: " + k.description + ", Status: " + KeyStatus(k, now) + "}"
  }

  /** Once a key is invalid it stays invalid. */
  lemma InvalidStaysInvalid(k: AuthKey, now: int, later: int)
    requires now <= later && !IsValid(k, now)
    ensures !IsValid(k, later)
  {
  }

  /** The elements of `s` that satisfy `p`, in their order. */
  function Keep<T>(s: seq<T>, p: T -> bool): (r: seq<T>)
    ensures |r| <= |s|
    ensures forall i :: 0 <= i < |r| ==> p(r[i])
  {
    if |s| == 0 then [] else Keep(s[..|s| - 1], p) + (if p(s[|s| - 1]) then [s[|s| - 1]] else [])
  }

  /** An element is kept exactly when it is in the list and satisfies the test. */
  lemma {:induction false} KeepMembers<T>(s: seq<T>, p: T -> bool, x: T)
    ensures x in Keep(s, p) <==> x in s && p(x)
  {
    if |s| > 0 {
      KeepMembers(s[..|s| - 1], p, x);
      assert s == s[..|s| - 1] + [s[|s| - 1]];
    }
  }

  /** Filtering keeps the order: the filter of a concatenation is the concatenation of the filters. */
  lemma {:induction false} KeepAppend<T>(a: seq<T>, b: seq<T>, p: T -> bool)
    ensures Keep(a + b, p) == Keep(a, p) + Keep(b, p)
  {
    if |b| == 0 {
      assert a + b == a;
    } else {
      var b' := b[..|b| - 1];
      assert (a + b)[..|a + b| - 1] == a + b';
      KeepAppend(a, b', p);
    }
  }

  /** A list whose every element passes is kept whole. */
  lemma {:induction false} KeepAll<T>(s: seq<T>, p: T -> bool)
    requires forall i :: 0 <= i < |s| ==> p(s[i])
    ensures Keep(s, p) == s
  {
    if |s| > 0 {
      KeepAll(s[..|s| - 1], p);
    }
  }

  /** The filter of a list runs a loop that appends each passing element. */
  method Filter<T>(s: seq<T>, p: T -> bool) returns (r: seq<T>)
    ensures r == Keep(s, p)
  {
    r := [];
    var i := 0;
    while i < |s|
      invariant 0 <= i <= |s|
      invariant r == Keep(s[..i], p)
    {
      assert s[..i + 1][..i] == s[..i];
      if p(s[i]) {
        r := r + [s[i]];
      }
      i := i + 1;
    }
    assert s[..|s|] == s;
  }

  datatype DeviceListResponse = DeviceListResponse(devices: seq<Device>)

  /** Count */
  function Count(d: DeviceListResponse): nat {
    |d.devices|
  }

  /** AuthorizedDevices: the authorized devices, in list order. */
  method AuthorizedDevices(d: DeviceListResponse) returns (r: seq<Device>)
    ensures r == Keep(d.devices, (x: Device) => x.authorized)
  {
    r := Filter(d.devices, (x: Device) => x.authorized);
  }

  /** OnlineDevices: the devices online at `now`, in list order. */
  method OnlineDevices(d: DeviceListResponse, now: int) returns (r: seq<Device>)
    ensures r == Keep(d.devices, (x: Device) => IsOnline(x, now))
  {
    r := Filter(d.devices, (x: Device) => IsOnline(x, now));
  }

  datatype AuthKeyListResponse = AuthKeyListResponse(keys: seq<AuthKey>)

  /** ValidKeys: the keys valid at `now`, in list order. */
  method ValidKeys(a: AuthKeyListResponse, now: int) returns (r: seq<AuthKey>)
    ensures r == Keep(a.keys, (k: AuthKey) => IsValid(k, now))
  {
    r := Filter(a.keys, (k: AuthKey) => IsValid(k, now));
  }

  /**
   * The filters return exactly the elements that pass: authorized devices,
   * devices online at `now`, keys valid at `now`; a key valid later was
   * valid earlier; no filter returns more devices than the list counts.
   */
  lemma FiltersExact(d: DeviceListResponse, a: AuthKeyListResponse, now: int, later: int, x: Device, k: AuthKey)
    ensures x in Keep(d.devices, (y: Device) => y.authorized) <==> x in d.devices && x.authorized
    ensures x in Keep(d.devices, (y: Device) => IsOnline(y, now)) <==> x in d.devices && IsOnline(x, now)
    ensures k in Keep(a.keys, (y: AuthKey) => IsValid(y, now)) <==> k in a.keys && IsValid(k, now)
    ensures now <= later && k in Keep(a.keys, (y: AuthKey) => IsValid(y, later)) ==> k in Keep(a.keys, (y: AuthKey) => IsValid(y, now))
    ensures |Keep(d.devices, (y: Device) => y.authorized)| <= Count(d) && |Keep(d.devices, (y: Device) => IsOnline(y, now))| <= Count(d)
  {
    KeepMembers(d.devices, (y: Device) => y.authorized, x);
    KeepMembers(d.devices, (y: Device) => IsOnline(y, now), x);
    KeepMembers(a.keys, (y: AuthKey) => IsValid(y, now), k);
    KeepMembers(a.keys, (y: AuthKey) => IsValid(y, later), k);
  }

  /** The API error of the typed client, with the operation and an optional request id. */
  datatype ApiError = ApiError(operation: string, message: string, statusCode: int, requestId: string)

  /** APIError.Error: the request id appears only when there is one. */
  function ApiErrorText(e: ApiError): string {
    if e.requestId != "" then
      "Tailscale API error in " + e.operation + " (status " + IntToString(e.statusCode) + ", request " + e.requestId + "): " + e.message
    else
      "Tailscale API error in " + e.operation + " (status " + IntToString(e.statusCode) + "): " + e.message
  }

  /** Both forms start with the operation and end with the message; only the first names the request. */
  lemma ApiErrorTextShape(e: ApiError)
    ensures HasPrefix(ApiErrorText(e), "Tailscale API error in " + e.operation + " (status " + IntToString(e.statusCode))
    ensures HasSuffix(ApiErrorText(e), "): " + e.message)
    ensures e.requestId != "" ==> Contains(ApiErrorText(e), ", request " + e.requestId + "): ")
    ensures e.requestId == "" ==>
            ApiErrorText(e) == "Tailscale API error in " + e.operation + " (status " + IntToString(e.statusCode) + "): " + e.message
  {
    var head := "Tailscale API error in " + e.operation + " (status " + IntToString(e.statusCode);
    if e.requestId != "" {
      FiveParts(head, ", request ", e.requestId, "): ", e.message);
    } else {
      AppendEnds(head, "): " + e.message);
      assert head + "): " + e.message == head + ("): " + e.message);
    }
  }

  predicate IsNotFound(e: ApiError) { e.statusCode == 404 }
  predicate IsUnauthorized(e: ApiError) { e.statusCode == 401 }
  predicate IsForbidden(e: ApiError) { e.statusCode == 403 }
  predicate IsRateLimited(e: ApiError) { e.statusCode == 429 }

  /** The four status tests are exclusive, and each holds for its one status. */
  lemma StatusTests(e: ApiError)
    ensures !(IsNotFound(e) && IsUnauthorized(e)) && !(IsNotFound(e) && IsForbidden(e)) && !(IsNotFound(e) && IsRateLimited(e))
    ensures !(IsUnauthorized(e) && IsForbidden(e)) && !(IsUnauthorized(e) && IsRateLimited(e)) && !(IsForbidden(e) && IsRateLimited(e))
    ensures IsNotFound(e) || IsUnauthorized(e) || IsForbidden(e) || IsRateLimited(e) <==> e.statusCode in {401, 403, 404, 429}
  {
  }
}
