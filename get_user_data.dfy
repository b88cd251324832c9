/** api/get-user-data.ts: fetch the caller's record, creating it on first
    login, recharging the daily energy once 24 hours have passed and
    refreshing the stored identity; the record is always written back. */
module GetUserData {
  import opened Types
  import opened Http
  import opened KvStore

  const DAILY_ENERGY := 20
  const RECHARGE_INTERVAL_MS := 24 * 60 * 60 * 1000

  /** The keys whose presence makes a stored object count as a user record. */
  const RequiredKeys: set<string> := {"user", "persona", "chatEnergy", "lastRechargeTimestamp"}

  /** What the shape check makes of a stored value. */
  datatype Shape = Missing | Malformed | Valid(data: UserData)

  /** `isUserData`: an object that has all four keys; the values are not looked at. */
  predicate IsUserData(raw: Raw)
  {
    raw.Object? && RequiredKeys <= raw.keys
  }

  function Classify(raw: Raw): (s: Shape)
    ensures s.Valid? <==> raw.Object? && "user" in raw.keys && "persona" in raw.keys
                          && "chatEnergy" in raw.keys && "lastRechargeTimestamp" in raw.keys
    ensures s.Valid? ==> s.data == raw.data
    ensures s.Missing? <==> raw == Null || raw == Scalar(false)
  {
    if IsUserData(raw) then Valid(raw.data)
    else if Falsy(raw) then Missing
    else Malformed
  }

  /** The record made for a user the store does not know (or holds garbage for). */
  function FreshRecord(user: User, now: int): (d: UserData)
    ensures d.user == user && d.persona == None
    ensures d.chatEnergy == DAILY_ENERGY && d.lastRechargeTimestamp == now
  {
    UserData(user, None, DAILY_ENERGY, now)
  }

  /** The recharge rule: a full day after the last recharge, energy goes back to
      the full daily amount and the clock restarts; before that nothing changes. */
  function Recharge(d: UserData, now: int): (r: UserData)
    ensures r.user == d.user && r.persona == d.persona
    ensures now - d.lastRechargeTimestamp >= RECHARGE_INTERVAL_MS ==>
              r.chatEnergy == DAILY_ENERGY && r.lastRechargeTimestamp == now
    ensures now - d.lastRechargeTimestamp < RECHARGE_INTERVAL_MS ==> r == d
  {
    if now - d.lastRechargeTimestamp >= RECHARGE_INTERVAL_MS then
      d.(chatEnergy := DAILY_ENERGY, lastRechargeTimestamp := now)
    else d
  }

  /** The object the handler writes back for the stored value `raw`. */
  function Refreshed(raw: Raw, user: User, now: int): (r: Raw)
    ensures IsUserData(r) && r.data.user == user
  {
    match Classify(raw)
    case Valid(d) => Object(raw.keys, Recharge(d, now).(user := user))
    case _ => Object(RequiredKeys, FreshRecord(user, now))
  }

  /** `!user || !user.email`: no body object, or no (or an empty) email. */
  predicate LacksEmail(body: Option<User>)
  {
    body.None? || body.value.email == ""
  }

  /** The handler as a function of the store, the request, the clock and the
      store's behaviour. */
  function GetUserDataSpec(entries: map<string, Raw>, req: Request<Option<User>>, now: int, fault: StoreFault): Outcome
  {
    if req.verb != "POST" then Outcome(MethodNotAllowed, entries)
    else if fault.NotConfigured? then Outcome(Response(500, ErrorJson(NotConfiguredMessage)), entries)
    else if req.body.Unparsable? then Outcome(Response(500, ErrorJson(req.body.message)), entries)
    else if LacksEmail(req.body.value) then Outcome(Response(400, ErrorJson("User email is required.")), entries)
    else if fault.ReadFails? then Outcome(Response(500, ErrorJson(fault.message)), entries)
    else
      var user := req.body.value.value;
      var record := Refreshed(Lookup(entries, user.email), user, now);
      if fault.WriteFails? then Outcome(Response(500, ErrorJson(fault.message)), entries)
      else Outcome(Response(200, Record(record)), entries[user.email := record])
  }

  /** The handler: one read, an in-place update of the record, one write. */
  method HandleGetUserData(kv: Store, req: Request<Option<User>>, now: int, fault: StoreFault)
    returns (resp: Response)
    modifies kv
    ensures Outcome(resp, kv.entries) == GetUserDataSpec(old(kv.entries), req, now, fault)
  {
    if req.verb != "POST" {
      return MethodNotAllowed;
    }
    // getRedisClient() runs before the body is read
    if fault.NotConfigured? {
      return Response(500, ErrorJson(NotConfiguredMessage));
    }
    if req.body.Unparsable? {
      return Response(500, ErrorJson(req.body.message));
    }
    if LacksEmail(req.body.value) {
      return Response(400, ErrorJson("User email is required."));
    }
    var user := req.body.value.value;
    if fault.ReadFails? {
      return Response(500, ErrorJson(fault.message));
    }
    var raw := kv.Get(user.email);
    var record: Raw;
    if IsUserData(raw) {
      var userData := raw.data;
      if now - userData.lastRechargeTimestamp >= RECHARGE_INTERVAL_MS {
        userData := userData.(chatEnergy := DAILY_ENERGY);
        userData := userData.(lastRechargeTimestamp := now);
      }
      userData := userData.(user := user);
      record := Object(raw.keys, userData);
    } else {
      record := Object(RequiredKeys, FreshRecord(user, now));
    }
    if fault.WriteFails? {
      return Response(500, ErrorJson(fault.message));
    }
    kv.Set(user.email, record);
    resp := Response(200, Record(record));
  }

  // ------------------------------------------------------------ properties

  /** A missing email is refused with 400 and the store is neither read nor written. */
  lemma MissingEmailIsRejected(entries: map<string, Raw>, req: Request<Option<User>>, now: int, fault: StoreFault)
    requires req.verb == "POST" && !fault.NotConfigured? && req.body.Parsed? && LacksEmail(req.body.value)
    ensures GetUserDataSpec(entries, req, now, fault) == Outcome(Response(400, ErrorJson("User email is required.")), entries)
  {
  }

  /** Nothing but a 200 changes the store; a 200 writes exactly the returned
      record under the request's email and touches no other key. */
  lemma ReturnedIsWritten(entries: map<string, Raw>, req: Request<Option<User>>, now: int, fault: StoreFault)
    ensures var o := GetUserDataSpec(entries, req, now, fault);
            if o.resp.status == 200 then
              req.body.Parsed? && req.body.value.Some? &&
              o.resp.body.Record? && IsUserData(o.resp.body.value) &&
              o.entries == entries[req.body.value.value.email := o.resp.body.value]
            else o.entries == entries
  {
  }

  /** A key the store does not hold, or a value that fails the shape check,
      yields a fresh full-energy record with no persona, stamped `now`. */
  lemma MissingOrMalformedIsFresh(raw: Raw, user: User, now: int)
    requires !IsUserData(raw)
    ensures Refreshed(raw, user, now) == Object(RequiredKeys, UserData(user, None, 20, now))
  {
  }

  /** For a valid record the identity is always replaced, the persona and any
      other stored key are kept, and the recharge fires exactly when a full day
      has passed since the last one. */
  lemma ValidRecordIsRefreshed(raw: Raw, user: User, now: int)
    requires IsUserData(raw)
    ensures var r := Refreshed(raw, user, now);
            && r.keys == raw.keys
            && r.data.user == user
            && r.data.persona == raw.data.persona
            && (now - raw.data.lastRechargeTimestamp >= 86_400_000 <==>
                  r.data.lastRechargeTimestamp != raw.data.lastRechargeTimestamp)
            && (now - raw.data.lastRechargeTimestamp >= 86_400_000 ==>
                  r.data.chatEnergy == 20 && r.data.lastRechargeTimestamp == now)
            && (now - raw.data.lastRechargeTimestamp < 86_400_000 ==>
                  r.data.chatEnergy == raw.data.chatEnergy)
  {
  }

  /** The boundary of the recharge rule: one millisecond short of a day does
      not recharge, a full day does. */
  lemma RechargeBoundary(d: UserData, t: int)
    requires d.lastRechargeTimestamp == t
    ensures Recharge(d, t + 86_400_000 - 1) == d
    ensures Recharge(d, t + 86_400_000) == d.(chatEnergy := 20, lastRechargeTimestamp := t + 86_400_000)
  {
  }

  /** Energy never leaves [0, 20]: the handler only sets it to 20 or keeps it. */
  lemma EnergyStaysInRange(raw: Raw, user: User, now: int)
    requires IsUserData(raw) ==> 0 <= raw.data.chatEnergy <= DAILY_ENERGY
    ensures 0 <= Refreshed(raw, user, now).data.chatEnergy <= DAILY_ENERGY
  {
  }

  /** Running the handler again on its own output, with the same user and the
      same clock, gives the same response and leaves the store as it was. */
  lemma {:induction false} FetchIsIdempotent(entries: map<string, Raw>, req: Request<Option<User>>, now: int)
    requires GetUserDataSpec(entries, req, now, Healthy).resp.status == 200
    ensures var o := GetUserDataSpec(entries, req, now, Healthy);
            GetUserDataSpec(o.entries, req, now, Healthy) == o
  {
    var user := req.body.value.value;
    var r := Refreshed(Lookup(entries, user.email), user, now);
    var o := GetUserDataSpec(entries, req, now, Healthy);
    assert Lookup(o.entries, user.email) == r;
    assert r.data.lastRechargeTimestamp == now || now - r.data.lastRechargeTimestamp < RECHARGE_INTERVAL_MS;
    assert Refreshed(r, user, now) == r;
    assert o.entries[user.email := r] == o.entries;
  }
}
