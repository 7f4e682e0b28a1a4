/** The per-room durable object of the worker: the stored room record, the registered
    WebSocket sessions, admission, the message handlers, the close listener and the expiry
    alarm. Sockets are numbers; a handler's effect on the outside world is the list of frames
    it sends and sockets it closes. */
module RoomActor {
  import opened Common
  import Licenses

  const DayMs: int := 86400000
  const MaxPayload: nat := 500 * 1024
  const MaxSignatures: nat := 50
  const SignatureLimitText: string := "Signature limit reached."

  datatype Role = Guest | Admin

  /** A registered socket, its role and its four-character session id. */
  datatype Session = Session(socket: nat, role: Role, id: string)

  datatype LogEntry = LogEntry(timestamp: int, event: string, detail: string, user: string)

  /** The `data` object of an upload, stored and relayed verbatim; it may be missing. */
  datatype Upload = NoData | Upload(encryptedData: Option<string>)

  /** The room record kept in memory and under the storage key `data`. */
  datatype Room = Room(
    roomId: Option<string>,
    encryptedPsbt: Option<string>,
    adminToken: Option<string>,
    signatures: seq<Upload>,
    tier: string,
    isPaid: bool,
    createdAt: int,
    expiresAt: int,
    isExtended: bool,
    auditLog: seq<LogEntry>,
    signerLabels: map<string, string>,
    roomName: string,
    whitelist: seq<string>,
    isLocked: bool,
    isGenesis: bool,
    network: string)

  /** The frames the room sends. */
  datatype Frame =
    | ErrorNotFound
    | ErrorLocked
    | StateSync(state: Room, connectedCount: nat)
    | ConnectionsUpdate(count: nat)
    | RoleUpdate
    | LabelsUpdated(signerLabels: map<string, string>)
    | RoomRenamed(name: string)
    | LogUpdate(auditLog: seq<LogEntry>)
    | NewPartialData(data: Upload, signerId: Option<string>, auditLog: seq<LogEntry>)
    | RoomClosed(finalLog: seq<LogEntry>)
    | WhitelistUpdated(whitelist: seq<string>)
    | LockUpdated(isLocked: bool)
    | RoomUnlocked(newExpiry: Option<int>)
    | TimeExtended(expiresAt: int)
    | ErrorMessage(message: string)

  datatype Delivery = Send(socket: nat, frame: Frame) | Close(socket: nat, code: nat, reason: string)

  /** The messages clients send; anything else, or text that is not JSON, is `Unrecognised`. */
  datatype ClientMsg =
    | VerifyLicense(key: string)
    | Auth(token: Option<string>)
    | UpdateLabel(fingerprint: string, name: string)
    | RenameRoom(newName: string)
    | LogAction(action: string, detail: Option<string>)
    | UploadPartial(data: Upload, signer: Option<string>, signerId: Option<string>)
    | CloseRoom
    | UpdateWhitelist(address: string, remove: bool)
    | ToggleLock(locked: bool)
    | Unrecognised

  /** The object's state: the room in memory, the room in storage, the alarm and the sessions. */
  datatype Actor = Actor(room: Option<Room>, stored: Option<Room>, alarm: Option<int>, sessions: seq<Session>)

  /** Storage holds exactly what memory holds. */
  predicate Persisted(a: Actor) {
    a.stored == a.room
  }

  /** The session table is a map keyed by socket. */
  predicate UniqueSockets(sessions: seq<Session>) {
    forall i, j :: 0 <= i < j < |sessions| ==> sessions[i].socket != sessions[j].socket
  }

  // ---------------------------------------------------------------------------------------
  // The session table
  // ---------------------------------------------------------------------------------------

  function IndexOfSocket(sessions: seq<Session>, s: nat): (r: Option<nat>)
    ensures r.Some? ==> r.value < |sessions| && sessions[r.value].socket == s
    ensures r.None? ==> forall i :: 0 <= i < |sessions| ==> sessions[i].socket != s
    ensures r.Some? ==> forall j :: 0 <= j < r.value ==> sessions[j].socket != s
  {
    if |sessions| == 0 then None
    else if sessions[0].socket == s then Some(0)
    else
      match IndexOfSocket(sessions[1..], s)
      case None => None
      case Some(i) => Some(i + 1)
  }

  /** `sessions.get(socket)`. */
  function Registered(sessions: seq<Session>, s: nat): Option<Session> {
    match IndexOfSocket(sessions, s)
    case None => None
    case Some(i) => Some(sessions[i])
  }

  /** `sessions.set(socket, entry)`: an existing key keeps its place, a new one goes last. */
  function SetSession(sessions: seq<Session>, e: Session): (r: seq<Session>)
    ensures UniqueSockets(sessions) ==> UniqueSockets(r)
    ensures Registered(sessions, e.socket).Some? ==> |r| == |sessions|
    ensures Registered(sessions, e.socket).None? ==> r == sessions + [e]
    ensures Registered(r, e.socket) == Some(e)
  {
    match IndexOfSocket(sessions, e.socket)
    case None =>
      var r := sessions + [e];
      FirstIndex(r, e.socket, |sessions|);
      r
    case Some(i) =>
      var r := sessions[i := e];
      FirstIndex(r, e.socket, i);
      r
  }

  /** The search finds the first entry of a socket. */
  lemma {:induction false} FirstIndex(sessions: seq<Session>, s: nat, k: nat)
    requires k < |sessions| && sessions[k].socket == s
    requires forall j :: 0 <= j < k ==> sessions[j].socket != s
    ensures IndexOfSocket(sessions, s) == Some(k)
  {
    if k > 0 {
      assert sessions[0].socket != s;
      assert forall j :: 0 <= j < k - 1 ==> sessions[1..][j] == sessions[j + 1];
      FirstIndex(sessions[1..], s, k - 1);
    }
  }

  /** `sessions.delete(socket)`. */
  function RemoveSession(sessions: seq<Session>, s: nat): (r: seq<Session>)
    ensures forall i :: 0 <= i < |r| ==> r[i].socket != s
    ensures forall e :: e in r <==> e in sessions && e.socket != s
    ensures UniqueSockets(sessions) ==> UniqueSockets(r)
  {
    if |sessions| == 0 then []
    else
      var rest := RemoveSession(sessions[..|sessions| - 1], s);
      var last := sessions[|sessions| - 1];
      assert forall e :: e in sessions <==> e in sessions[..|sessions| - 1] || e == last;
      if last.socket == s then rest else rest + [last]
  }

  /** `broadcast(frame)`: one send to every registered socket, in registration order. */
  function BroadcastTo(sessions: seq<Session>, f: Frame): (r: seq<Delivery>)
    ensures |r| == |sessions|
  {
    if |sessions| == 0 then []
    else BroadcastTo(sessions[..|sessions| - 1], f) + [Send(sessions[|sessions| - 1].socket, f)]
  }

  /** A broadcast sends the frame to every registered socket, in table order. */
  lemma {:induction false} BroadcastReachesAll(sessions: seq<Session>, f: Frame)
    ensures forall i :: 0 <= i < |sessions| ==> BroadcastTo(sessions, f)[i] == Send(sessions[i].socket, f)
  {
    if |sessions| > 0 {
      var init := sessions[..|sessions| - 1];
      BroadcastReachesAll(init, f);
      assert forall i :: 0 <= i < |init| ==> init[i] == sessions[i];
    }
  }

  /** Closing every registered socket with one code and reason. */
  function CloseAll(sessions: seq<Session>, code: nat, reason: string): (r: seq<Delivery>)
    ensures |r| == |sessions|
  {
    if |sessions| == 0 then []
    else CloseAll(sessions[..|sessions| - 1], code, reason) + [Close(sessions[|sessions| - 1].socket, code, reason)]
  }

  /** Closing all closes every registered socket, in table order. */
  lemma {:induction false} CloseAllClosesAll(sessions: seq<Session>, code: nat, reason: string)
    ensures forall i :: 0 <= i < |sessions| ==> CloseAll(sessions, code, reason)[i] == Close(sessions[i].socket, code, reason)
  {
    if |sessions| > 0 {
      var init := sessions[..|sessions| - 1];
      CloseAllClosesAll(init, code, reason);
      assert forall i :: 0 <= i < |init| ==> init[i] == sessions[i];
    }
  }

  predicate IsAdmin(sessions: seq<Session>, s: nat) {
    Registered(sessions, s).Some? && Registered(sessions, s).value.role == Admin
  }

  /** The audit-log user: "Coordinator" for an admin socket, otherwise the guest's session id
      (an unregistered socket renders its id as "undefined"). */
  function UserLabel(sessions: seq<Session>, s: nat): string {
    if IsAdmin(sessions, s) then "Coordinator"
    else "Guest (" + (match Registered(sessions, s) case Some(e) => e.id case None => "undefined") + ")"
  }

  // ---------------------------------------------------------------------------------------
  // Room record helpers
  // ---------------------------------------------------------------------------------------

  function Logged(r: Room, event: string, detail: string, user: string, now: int): (r': Room)
    ensures r'.auditLog == r.auditLog + [LogEntry(now, event, detail, user)]
    ensures r' == r.(auditLog := r'.auditLog)
  {
    r.(auditLog := r.auditLog + [LogEntry(now, event, detail, user)])
  }

  /** `log()`: append to the audit log and store the room; nothing at all without a room. */
  function LogActor(a: Actor, event: string, detail: string, user: string, now: int): (a': Actor)
    ensures a.room.None? ==> a' == a
    ensures a.room.Some? ==> a' == a.(room := Some(Logged(a.room.value, event, detail, user, now)), stored := a'.room)
  {
    match a.room
    case None => a
    case Some(r) => var r' := Logged(r, event, detail, user, now); a.(room := Some(r'), stored := Some(r'))
  }

  function Store(a: Actor, r: Room): (a': Actor)
    ensures Persisted(a') && a'.room == Some(r)
  {
    a.(room := Some(r), stored := Some(r))
  }

  /** How many sockets a room admits: 10, or for the enterprise tier 40 when paid and 5 when not. */
  function Limit(r: Room): (n: nat)
    ensures r.tier != "enterprise" ==> n == 10
    ensures r.tier == "enterprise" && r.isPaid ==> n == 40
    ensures r.tier == "enterprise" && !r.isPaid ==> n == 5
  {
    if r.tier == "enterprise" then (if r.isPaid then 40 else 5) else 10
  }

  /** The list without any occurrence of `x`. */
  function Without(list: seq<string>, x: string): seq<string> {
    if |list| == 0 then []
    else
      var rest := Without(list[..|list| - 1], x);
      if list[|list| - 1] == x then rest else rest + [list[|list| - 1]]
  }

  /** `filter(a => a !== x)`: every occurrence of `x` goes, every other element stays, and no
      duplicate appears. */
  lemma {:induction false} WithoutFilters(list: seq<string>, x: string)
    ensures x !in Without(list, x)
    ensures forall y :: y != x ==> (y in Without(list, x) <==> y in list)
    ensures NoDuplicates(list) ==> NoDuplicates(Without(list, x))
  {
    if |list| > 0 {
      var init, last := list[..|list| - 1], list[|list| - 1];
      WithoutFilters(init, x);
      var rest := Without(init, x);
      assert list == init + [last];
      assert forall y :: y in list <==> y in init || y == last;
      assert NoDuplicates(list) ==> NoDuplicates(init) && last !in init;
      if NoDuplicates(list) && last != x {
        var r := rest + [last];
        forall i, j | 0 <= i < j < |r| ensures r[i] != r[j] {
          if j == |rest| {
            assert r[i] == rest[i] && rest[i] in rest;
          } else {
            assert r[i] == rest[i] && r[j] == rest[j];
          }
        }
      }
    }
  }

  predicate NoDuplicates(list: seq<string>) {
    forall i, j :: 0 <= i < j < |list| ==> list[i] != list[j]
  }

  // ---------------------------------------------------------------------------------------
  // The room's HTTP routes
  // ---------------------------------------------------------------------------------------

  /** The JSON body of `/init`. */
  datatype InitBody = InitBody(
    encryptedPsbt: Option<string>,
    adminToken: Option<string>,
    tier: Option<string>,
    roomId: Option<string>,
    licenseKey: Option<string>,
    network: Option<string>)

  /** The room `/init` creates, or the parse error a malformed license record throws. */
  function InitRoom(body: InitBody, kv: Licenses.Kv, now: nat): Result<Room, Licenses.KvError> {
    var license := if body.licenseKey.Some? && body.licenseKey.value != ""
      then Licenses.Validate(kv, body.licenseKey.value, now) else Ok(None);
    match license
    case Err(e) => Err(e)
    case Ok(l) =>
      var tier := if l.Some? then "enterprise" else OrDefault(body.tier, "free");
      var isPaid := l.Some? || body.tier != Some("enterprise");
      var ttl := if tier == "enterprise" then 86400 else 1200;
      Ok(Room(body.roomId, body.encryptedPsbt, body.adminToken, [], tier, isPaid, now, now + ttl * 1000, false,
        [LogEntry(now, "Room Created", "Tier: " + Render(body.tier), "System")], map[], "Untitled Room", [],
        false, l.Some? && Licenses.IsGenesis(l.value.kind), OrDefault(body.network, "bitcoin")))
  }

  function InitStep(a: Actor, body: InitBody, kv: Licenses.Kv, now: nat): (r: (Actor, bool))
    ensures Persisted(r.0) || (!r.1 && r.0 == a)
    ensures r.0.sessions == a.sessions
  {
    match InitRoom(body, kv, now)
    case Err(_) => (a, false)
    case Ok(room) => (Store(a, room).(alarm := Some(room.expiresAt)), true)
  }

  /** A created room lives a day when enterprise (after license promotion) and twenty minutes
      otherwise, with the alarm at its expiry; it is unpaid only as an enterprise room without a
      valid license; it starts with no signatures and one "Room Created" entry. */
  lemma InitFacts(a: Actor, body: InitBody, kv: Licenses.Kv, now: nat)
    requires InitRoom(body, kv, now).Ok?
    ensures var r := InitRoom(body, kv, now).value;
      var licensed := body.licenseKey.Some? && body.licenseKey.value != "" &&
        Licenses.Validate(kv, body.licenseKey.value, now).value.Some?;
      && InitStep(a, body, kv, now) == (a.(room := Some(r), stored := Some(r), alarm := Some(r.expiresAt)), true)
      && r.expiresAt == now + (if r.tier == "enterprise" then DayMs else 1200000)
      && (r.tier == "enterprise" <==> licensed || body.tier == Some("enterprise"))
      && (!r.isPaid <==> !licensed && body.tier == Some("enterprise"))
      && (r.isGenesis ==> licensed)
      && r.signatures == []
      && |r.auditLog| == 1 && r.auditLog[0].event == "Room Created"
  {
  }

  /** A license record that cannot be parsed makes `/init` fail without creating the room. */
  lemma InitMalformedLicense(a: Actor, body: InitBody, kv: Licenses.Kv, now: nat)
    requires body.licenseKey.Some? && body.licenseKey.value != ""
    requires Licenses.Validate(kv, body.licenseKey.value, now).Err?
    ensures InitStep(a, body, kv, now) == (a, false)
  {
  }

  /** `/unlock`: mark the room paid, log it and tell everyone; 404 without a room. */
  function UnlockStep(a: Actor, now: int): (r: (Actor, seq<Delivery>, nat))
    ensures Persisted(a) ==> Persisted(r.0)
    ensures a.room.None? ==> r == (a, [], 404)
    ensures a.room.Some? ==> r.2 == 200 && r.0.room.Some? && r.0.room.value.isPaid && r.0.sessions == a.sessions
  {
    match a.room
    case None => (a, [], 404)
    case Some(room) =>
      var room' := Logged(room.(isPaid := true), "Room Unlocked", "Payment confirmed", "System", now);
      (Store(a, room'), BroadcastTo(a.sessions, RoomUnlocked(None)), 200)
  }

  /** The expiry `/extend` sets: a day past the later of now and the current expiry (a zero
      expiry counts as now). */
  function ExtendedExpiry(expiresAt: int, now: int): int {
    var current := if expiresAt != 0 then expiresAt else now;
    (if now > current then now else current) + DayMs
  }

  function ExtendStep(a: Actor, now: int): (r: (Actor, seq<Delivery>, nat))
    ensures Persisted(a) ==> Persisted(r.0)
    ensures a.room.None? ==> r == (a, [], 404)
  {
    match a.room
    case None => (a, [], 404)
    case Some(room) =>
      var expiry := ExtendedExpiry(room.expiresAt, now);
      var room' := Logged(room.(expiresAt := expiry, isExtended := true), "Time Extended", "+24 Hours added", "System", now);
      (Store(a, room').(alarm := Some(expiry)), BroadcastTo(a.sessions, TimeExtended(expiry)), 200)
  }

  /** Extending never shortens a room: the new expiry is at least a day past both the old
      expiry and now, and the alarm moves with it. */
  lemma ExtendNeverShortens(a: Actor, now: nat)
    requires a.room.Some?
    ensures var (a', out, status) := ExtendStep(a, now);
      && status == 200
      && a'.room.Some? && a'.room.value.isExtended
      && a'.room.value.expiresAt >= a.room.value.expiresAt + DayMs
      && a'.room.value.expiresAt >= now + DayMs
      && (var cur := if a.room.value.expiresAt != 0 then a.room.value.expiresAt else now;
          a'.room.value.expiresAt == (if now > cur then now else cur) + DayMs)
      && a'.alarm == Some(a'.room.value.expiresAt)
      && out == BroadcastTo(a.sessions, TimeExtended(a'.room.value.expiresAt))
  {
  }

  // ---------------------------------------------------------------------------------------
  // Admission
  // ---------------------------------------------------------------------------------------

  /** The STATE_SYNC frame as the source builds it: the whole room record, token included. */
  function SyncFrameAsWritten(r: Room, count: nat): Frame {
    StateSync(r, count)
  }

  /** The STATE_SYNC frame without the coordinator's admin token. */
  function SyncFrame(r: Room, count: nat): (f: Frame)
    ensures f.StateSync? && f.state.adminToken.None? && f.connectedCount == count
  {
    StateSync(r.(adminToken := None), count)
  }

  /** `handleSession` for a new socket: refused when there is no room, then when the room is
      full, then when it is locked; otherwise registered as a guest, announced to everyone, and
      sent the room. */
  function AdmitStep(a: Actor, s: nat, id: string, now: int): (r: (Actor, seq<Delivery>))
    ensures Persisted(a) ==> Persisted(r.0)
    ensures UniqueSockets(a.sessions) ==> UniqueSockets(r.0.sessions)
  {
    match a.room
    case None => (a, [Send(s, ErrorNotFound), Close(s, 4004, "Room Not Found")])
    case Some(room) =>
      if |a.sessions| >= Limit(room) then (a, [Close(s, 4001, "Room Full")])
      else if room.isLocked then (a, [Send(s, ErrorLocked), Close(s, 1000, "Room is Locked")])
      else
        var sessions := SetSession(a.sessions, Session(s, Guest, id));
        var room' := Logged(room, "User Joined", "Session: " + id, "Guest", now);
        (Store(a.(sessions := sessions), room'),
         BroadcastTo(sessions, ConnectionsUpdate(|sessions|)) + [Send(s, SyncFrame(room', |sessions|))])
  }

  /** The admission checks in their order, and what each outcome does. */
  lemma AdmissionOrder(a: Actor, s: nat, id: string, now: int)
    requires Registered(a.sessions, s).None?
    ensures var (a', out) := AdmitStep(a, s, id, now);
      && (a.room.None? ==> a' == a && out == [Send(s, ErrorNotFound), Close(s, 4004, "Room Not Found")])
      && (a.room.Some? && |a.sessions| >= Limit(a.room.value) ==> a' == a && out == [Close(s, 4001, "Room Full")])
      && (a.room.Some? && |a.sessions| < Limit(a.room.value) && a.room.value.isLocked ==>
            a' == a && out == [Send(s, ErrorLocked), Close(s, 1000, "Room is Locked")])
      && (a.room.Some? && |a.sessions| < Limit(a.room.value) && !a.room.value.isLocked ==>
            && a'.sessions == a.sessions + [Session(s, Guest, id)]
            && |out| == |a'.sessions| + 1
            && out[|out| - 1] == Send(s, SyncFrame(a'.room.value, |a'.sessions|)))
  {
  }

  /** A full room refuses a socket even when it is also locked: capacity is checked first. */
  lemma FullBeforeLocked(a: Actor, s: nat, id: string, now: int)
    requires a.room.Some? && a.room.value.isLocked && |a.sessions| >= Limit(a.room.value)
    ensures AdmitStep(a, s, id, now) == (a, [Close(s, 4001, "Room Full")])
  {
  }

  /** Admission never takes a room past its limit. */
  lemma AdmissionWithinLimit(a: Actor, s: nat, id: string, now: int)
    requires a.room.Some? && |a.sessions| <= Limit(a.room.value)
    ensures |AdmitStep(a, s, id, now).0.sessions| <= Limit(a.room.value)
  {
  }

  /** The close listener: drop the socket, announce the new count, log the departure. */
  function LeaveStep(a: Actor, s: nat, now: int): (r: (Actor, seq<Delivery>))
    ensures Persisted(a) ==> Persisted(r.0)
    ensures UniqueSockets(a.sessions) ==> UniqueSockets(r.0.sessions)
    ensures Registered(r.0.sessions, s).None?
  {
    var id := match Registered(a.sessions, s) case Some(e) => e.id case None => "undefined";
    var sessions := RemoveSession(a.sessions, s);
    (LogActor(a.(sessions := sessions), "User Left", "Session ID: " + id, "Guest", now),
     BroadcastTo(sessions, ConnectionsUpdate(|sessions|)))
  }

  /** `alarm()`: erase storage, forget the room and close every socket as expired. */
  function AlarmStep(a: Actor): (r: (Actor, seq<Delivery>))
    ensures r.0 == a.(room := None, stored := None)
    ensures r.1 == CloseAll(a.sessions, 1000, "Expired")
  {
    (a.(room := None, stored := None), CloseAll(a.sessions, 1000, "Expired"))
  }

  // ---------------------------------------------------------------------------------------
  // Messages
  // ---------------------------------------------------------------------------------------

  /** VERIFY_LICENSE: a valid key promotes the room to paid enterprise and guarantees it at least
      a day; an already paid enterprise room, an invalid key or an unreadable record do nothing. */
  function VerifyLicenseStep(a: Actor, s: nat, key: string, kv: Licenses.Kv, now: nat): (r: (Actor, seq<Delivery>))
    requires a.room.Some?
  {
    var room := a.room.value;
    if room.tier == "enterprise" && room.isPaid then (a, [])
    else match Licenses.Validate(kv, key, now)
      case Err(_) => (a, [])
      case Ok(None) => (a, [])
      case Ok(Some(l)) =>
        var short := room.expiresAt - now < DayMs;
        var expiry := if short then now + DayMs else room.expiresAt;
        var room' := Logged(room.(tier := "enterprise", isPaid := true, expiresAt := expiry),
          "License Verified", "Type: " + l.kind, UserLabel(a.sessions, s), now);
        (Store(a, room').(alarm := if short then Some(expiry) else a.alarm),
         BroadcastTo(a.sessions, RoomUnlocked(Some(expiry))))
  }

  /** AUTH: the exact admin token makes the sending socket the coordinator. */
  function AuthStep(a: Actor, s: nat, token: Option<string>, now: int): (r: (Actor, seq<Delivery>))
    requires a.room.Some?
  {
    var room := a.room.value;
    if token != room.adminToken then (a, [])
    else
      var entry := match Registered(a.sessions, s) case Some(e) => e case None => Session(s, Guest, "undefined");
      var room' := Logged(room, "Role Claimed", "User became Coordinator", UserLabel(a.sessions, s), now);
      (Store(a.(sessions := SetSession(a.sessions, entry.(role := Admin))), room'), [Send(s, RoleUpdate)])
  }

  function UpdateLabelStep(a: Actor, s: nat, fingerprint: string, name: string, now: int): (r: (Actor, seq<Delivery>))
    requires a.room.Some?
  {
    if !IsAdmin(a.sessions, s) then (a, [])
    else
      var room := a.room.value;
      var room' := Logged(room.(signerLabels := room.signerLabels[fingerprint := name]), "Label Updated",
        fingerprint + " -> " + name, UserLabel(a.sessions, s), now);
      (Store(a, room'), BroadcastTo(a.sessions, LabelsUpdated(room'.signerLabels)))
  }

  function RenameRoomStep(a: Actor, s: nat, newName: string, now: int): (r: (Actor, seq<Delivery>))
    requires a.room.Some?
  {
    var room := a.room.value;
    if !IsAdmin(a.sessions, s) || room.tier != "enterprise" then (a, [])
    else
      var room' := Logged(room.(roomName := newName), "Room Renamed", room.roomName + " -> " + newName,
        UserLabel(a.sessions, s), now);
      (Store(a, room'), BroadcastTo(a.sessions, RoomRenamed(newName)))
  }

  function LogActionStep(a: Actor, s: nat, action: string, detail: Option<string>, now: int): (r: (Actor, seq<Delivery>))
    requires a.room.Some?
  {
    var room' := Logged(a.room.value, action, detail.GetOr(""), UserLabel(a.sessions, s), now);
    (Store(a, room'), BroadcastTo(a.sessions, LogUpdate(room'.auditLog)))
  }

  /** An upload whose encrypted text is longer than 500 KiB. */
  predicate Oversized(data: Upload) {
    data.Upload? && data.encryptedData.Some? && |data.encryptedData.value| > MaxPayload
  }

  function UploadStep(a: Actor, s: nat, data: Upload, signer: Option<string>, signerId: Option<string>, now: int): (r: (Actor, seq<Delivery>))
    requires a.room.Some?
  {
    var room := a.room.value;
    if Oversized(data) then (a, [])
    else if |room.signatures| >= MaxSignatures then (a, [Send(s, ErrorMessage(SignatureLimitText))])
    else
      var detail := if signer.Some? && signer.value != "" then "Signer: " + signer.value else "Unknown Signer";
      var room' := Logged(room.(signatures := room.signatures + [data]), "Signature Uploaded", detail,
        UserLabel(a.sessions, s), now);
      (Store(a, room'), BroadcastTo(a.sessions, NewPartialData(data, signerId, room'.auditLog)))
  }

  function CloseRoomStep(a: Actor, s: nat, now: int): (r: (Actor, seq<Delivery>))
    requires a.room.Some?
  {
    if !IsAdmin(a.sessions, s) then (a, [])
    else
      var room' := Logged(a.room.value, "Room Destroyed", "Coordinator closed session", "Coordinator", now);
      (a.(room := None, stored := None),
       BroadcastTo(a.sessions, RoomClosed(room'.auditLog)) + CloseAll(a.sessions, 1000, "Closed"))
  }

  /** The whitelist after an add (only when absent) or a remove (every occurrence). */
  function NewWhitelist(list: seq<string>, address: string, remove: bool): seq<string> {
    if remove then Without(list, address) else if address in list then list else list + [address]
  }

  function UpdateWhitelistStep(a: Actor, s: nat, address: string, remove: bool, now: int): (r: (Actor, seq<Delivery>))
    requires a.room.Some?
  {
    if !IsAdmin(a.sessions, s) then (a, [])
    else
      var room := a.room.value;
      var list := NewWhitelist(room.whitelist, address, remove);
      var room' := Logged(room.(whitelist := list), "Whitelist Updated",
        (if remove then "Removed" else "Added") + " " + address, UserLabel(a.sessions, s), now);
      (Store(a, room'), BroadcastTo(a.sessions, WhitelistUpdated(list)))
  }

  function ToggleLockStep(a: Actor, s: nat, locked: bool, now: int): (r: (Actor, seq<Delivery>))
    requires a.room.Some?
  {
    if !IsAdmin(a.sessions, s) then (a, [])
    else
      var room' := Logged(a.room.value.(isLocked := locked), "Security Alert",
        "Room " + (if locked then "LOCKED" else "UNLOCKED"), "Coordinator", now);
      (Store(a, room'), BroadcastTo(a.sessions, LockUpdated(locked)))
  }

  /** One message from socket `s`. Without a room every handler stops at its first use of the
      room, so nothing happens. */
  function MessageStep(a: Actor, s: nat, m: ClientMsg, kv: Licenses.Kv, now: nat): (r: (Actor, seq<Delivery>))
  {
    if a.room.None? then (a, [])
    else match m
      case VerifyLicense(key) => VerifyLicenseStep(a, s, key, kv, now)
      case Auth(token) => AuthStep(a, s, token, now)
      case UpdateLabel(fp, name) => UpdateLabelStep(a, s, fp, name, now)
      case RenameRoom(name) => RenameRoomStep(a, s, name, now)
      case LogAction(action, detail) => LogActionStep(a, s, action, detail, now)
      case UploadPartial(data, signer, signerId) => UploadStep(a, s, data, signer, signerId, now)
      case CloseRoom => CloseRoomStep(a, s, now)
      case UpdateWhitelist(address, remove) => UpdateWhitelistStep(a, s, address, remove, now)
      case ToggleLock(locked) => ToggleLockStep(a, s, locked, now)
      case Unrecognised => (a, [])
  }

  // ---------------------------------------------------------------------------------------
  // Properties of the handlers
  // ---------------------------------------------------------------------------------------

  /** Every handler keeps storage equal to memory and the session table keyed by socket. */
  lemma MessagesKeepInvariants(a: Actor, s: nat, m: ClientMsg, kv: Licenses.Kv, now: nat)
    requires Persisted(a) && UniqueSockets(a.sessions)
    ensures Persisted(MessageStep(a, s, m, kv, now).0)
    ensures UniqueSockets(MessageStep(a, s, m, kv, now).0.sessions)
  {
  }

  /** The admin-only messages change nothing and send nothing for a socket that is not the
      coordinator's. */
  lemma GuestsCannotAdminister(a: Actor, s: nat, m: ClientMsg, kv: Licenses.Kv, now: nat)
    requires !IsAdmin(a.sessions, s)
    requires m.UpdateLabel? || m.RenameRoom? || m.UpdateWhitelist? || m.ToggleLock? || m.CloseRoom?
    ensures MessageStep(a, s, m, kv, now) == (a, [])
  {
  }

  /** Renaming needs the enterprise tier even for the coordinator. */
  lemma RenameNeedsEnterprise(a: Actor, s: nat, name: string, kv: Licenses.Kv, now: nat)
    requires a.room.Some? && a.room.value.tier != "enterprise"
    ensures MessageStep(a, s, RenameRoom(name), kv, now) == (a, [])
  {
  }

  /** AUTH makes the socket the coordinator exactly when its token equals the room's token;
      no other session's role changes. */
  lemma AuthIffToken(a: Actor, s: nat, token: Option<string>, kv: Licenses.Kv, now: nat)
    requires a.room.Some? && UniqueSockets(a.sessions)
    ensures var a' := MessageStep(a, s, Auth(token), kv, now).0;
      && (token == a.room.value.adminToken ==> IsAdmin(a'.sessions, s))
      && (token != a.room.value.adminToken ==> a' == a)
      && (forall t :: t != s ==> Registered(a'.sessions, t) == Registered(a.sessions, t))
  {
    if token == a.room.value.adminToken {
      var entry := match Registered(a.sessions, s) case Some(e) => e case None => Session(s, Guest, "undefined");
      RegisteredAfterSet(a.sessions, entry.(role := Admin));
    }
  }

  /** Setting one socket's entry leaves every other socket's entry alone. */
  lemma {:induction false} RegisteredAfterSet(sessions: seq<Session>, e: Session)
    requires UniqueSockets(sessions)
    ensures forall t :: t != e.socket ==> Registered(SetSession(sessions, e), t) == Registered(sessions, t)
  {
    forall t | t != e.socket
      ensures Registered(SetSession(sessions, e), t) == Registered(sessions, t)
    {
      var r := SetSession(sessions, e);
      match IndexOfSocket(sessions, t)
      case None =>
        assert forall i :: 0 <= i < |r| ==> r[i].socket != t;
      case Some(i) =>
        FirstIndex(r, t, i);
    }
  }

  /** UPLOAD_PARTIAL: an oversized upload is dropped silently; at 50 signatures the sender alone
      gets an error; otherwise the data is appended verbatim and relayed to everyone. */
  lemma UploadCases(a: Actor, s: nat, data: Upload, signer: Option<string>, signerId: Option<string>, kv: Licenses.Kv, now: nat)
    requires a.room.Some?
    ensures var (a', out) := MessageStep(a, s, UploadPartial(data, signer, signerId), kv, now);
      var sigs := a.room.value.signatures;
      && (Oversized(data) ==> a' == a && out == [])
      && (!Oversized(data) && |sigs| >= MaxSignatures ==> a' == a && out == [Send(s, ErrorMessage(SignatureLimitText))])
      && (!Oversized(data) && |sigs| < MaxSignatures ==>
            && a'.room.Some? && a'.room.value.signatures == sigs + [data]
            && out == BroadcastTo(a.sessions, NewPartialData(data, signerId, a'.room.value.auditLog)))
  {
  }

  /** No message takes a room past 50 stored signatures. */
  lemma SignaturesStayCapped(a: Actor, s: nat, m: ClientMsg, kv: Licenses.Kv, now: nat)
    requires a.room.Some? && |a.room.value.signatures| <= MaxSignatures
    ensures var a' := MessageStep(a, s, m, kv, now).0;
      a'.room.Some? ==> |a'.room.value.signatures| <= MaxSignatures
  {
    if m.UpdateLabel? || m.RenameRoom? {
      AdminEditsKeepSignatures(a, s, m, kv, now);
    } else if m.UpdateWhitelist? || m.ToggleLock? {
      AdminAccessKeepsSignatures(a, s, m, kv, now);
    } else if m.VerifyLicense? || m.Auth? || m.LogAction? {
      OpenStepsKeepSignatures(a, s, m, kv, now);
    }
  }

  /** The coordinator's labels and renames leave the signatures as they were. */
  lemma AdminEditsKeepSignatures(a: Actor, s: nat, m: ClientMsg, kv: Licenses.Kv, now: nat)
    requires a.room.Some?
    requires m.UpdateLabel? || m.RenameRoom?
    ensures MessageStep(a, s, m, kv, now).0.room.Some?
    ensures MessageStep(a, s, m, kv, now).0.room.value.signatures == a.room.value.signatures
  {
  }

  /** The coordinator's whitelist and lock changes leave the signatures as they were. */
  lemma AdminAccessKeepsSignatures(a: Actor, s: nat, m: ClientMsg, kv: Licenses.Kv, now: nat)
    requires a.room.Some?
    requires m.UpdateWhitelist? || m.ToggleLock?
    ensures MessageStep(a, s, m, kv, now).0.room.Some?
    ensures MessageStep(a, s, m, kv, now).0.room.value.signatures == a.room.value.signatures
  {
  }

  /** VERIFY_LICENSE, AUTH and LOG_ACTION leave the signatures as they were. */
  lemma OpenStepsKeepSignatures(a: Actor, s: nat, m: ClientMsg, kv: Licenses.Kv, now: nat)
    requires a.room.Some?
    requires m.VerifyLicense? || m.Auth? || m.LogAction?
    ensures MessageStep(a, s, m, kv, now).0.room.Some?
    ensures MessageStep(a, s, m, kv, now).0.room.value.signatures == a.room.value.signatures
  {
  }

  /** UPDATE_WHITELIST keeps the whitelist free of duplicates; a remove deletes every
      occurrence and keeps every other address; an add makes the address present. */
  lemma WhitelistUpdates(list: seq<string>, address: string, remove: bool)
    ensures NoDuplicates(list) ==> NoDuplicates(NewWhitelist(list, address, remove))
    ensures remove ==> address !in NewWhitelist(list, address, remove)
    ensures !remove ==> address in NewWhitelist(list, address, remove)
    ensures forall y :: y != address ==> (y in NewWhitelist(list, address, remove) <==> y in list)
  {
    WithoutFilters(list, address);
    if !remove && address !in list {
      var r := list + [address];
      assert forall i :: 0 <= i < |list| ==> r[i] == list[i];
    }
  }

  /** VERIFY_LICENSE with a valid key leaves a paid enterprise room that lives at least another
      day, and never shortens the room. */
  lemma LicensePromotes(a: Actor, s: nat, key: string, kv: Licenses.Kv, now: nat)
    requires a.room.Some? && !(a.room.value.tier == "enterprise" && a.room.value.isPaid)
    requires Licenses.Validate(kv, key, now).Ok? && Licenses.Validate(kv, key, now).value.Some?
    ensures var (a', out) := MessageStep(a, s, VerifyLicense(key), kv, now);
      && a'.room.Some? && a'.room.value.tier == "enterprise" && a'.room.value.isPaid
      && a'.room.value.expiresAt >= now + DayMs
      && a'.room.value.expiresAt >= a.room.value.expiresAt
    ensures var (a', out) := MessageStep(a, s, VerifyLicense(key), kv, now);
      var short := a.room.value.expiresAt - now < DayMs;
      var expiry := if short then now + DayMs else a.room.value.expiresAt;
      && a'.room.Some? && a'.room.value.expiresAt == expiry
      && a'.alarm == (if short then Some(expiry) else a.alarm)
      && out == BroadcastTo(a.sessions, RoomUnlocked(Some(expiry)))
  {
  }

  /** An already paid enterprise room ignores license keys. */
  lemma PaidEnterpriseIgnoresLicense(a: Actor, s: nat, key: string, kv: Licenses.Kv, now: nat)
    requires a.room.Some? && a.room.value.tier == "enterprise" && a.room.value.isPaid
    ensures MessageStep(a, s, VerifyLicense(key), kv, now) == (a, [])
  {
  }

  /** CLOSE_ROOM from the coordinator and the alarm both erase the room from memory and
      storage and end by closing every registered socket. */
  lemma TeardownClosesEverything(a: Actor, s: nat, kv: Licenses.Kv, now: nat)
    requires a.room.Some? && IsAdmin(a.sessions, s)
    ensures var (a', out) := MessageStep(a, s, CloseRoom, kv, now);
      && a' == a.(room := None, stored := None)
      && out == BroadcastTo(a.sessions, RoomClosed(a.room.value.auditLog
           + [LogEntry(now, "Room Destroyed", "Coordinator closed session", "Coordinator")]))
         + CloseAll(a.sessions, 1000, "Closed")
    ensures var (a', out) := AlarmStep(a);
      && a' == a.(room := None, stored := None)
      && out == CloseAll(a.sessions, 1000, "Expired")
  {
  }

  /** Once the room is gone, logging is a no-op, messages do nothing, the payment routes answer
      404 and every new socket is told the room does not exist. */
  lemma DeadRoomIsInert(a: Actor, s: nat, m: ClientMsg, kv: Licenses.Kv, now: nat, id: string)
    requires a.room.None?
    ensures forall event, detail, user :: LogActor(a, event, detail, user, now) == a
    ensures MessageStep(a, s, m, kv, now) == (a, [])
    ensures UnlockStep(a, now).2 == 404 && ExtendStep(a, now).2 == 404
    ensures AdmitStep(a, s, id, now).1 == [Send(s, ErrorNotFound), Close(s, 4004, "Room Not Found")]
  {
  }

  // ---------------------------------------------------------------------------------------
  // The admin token in STATE_SYNC
  // ---------------------------------------------------------------------------------------

  /** As written, the STATE_SYNC frame a newly admitted guest receives carries the admin token,
      and sending that token back in an AUTH message makes the guest the coordinator. */
  lemma GuestObtainsCoordinatorRole(a: Actor, s: nat, id: string, kv: Licenses.Kv, now: nat)
    requires a.room.Some? && a.room.value.adminToken.Some?
    requires |a.sessions| < Limit(a.room.value) && !a.room.value.isLocked
    requires Registered(a.sessions, s).None? && UniqueSockets(a.sessions)
    ensures var a' := AdmitStep(a, s, id, now).0;
      var leaked := SyncFrameAsWritten(a'.room.value, |a'.sessions|).state.adminToken;
      && leaked == a.room.value.adminToken
      && Registered(a'.sessions, s) == Some(Session(s, Guest, id))
      && IsAdmin(MessageStep(a', s, Auth(leaked), kv, now).0.sessions, s)
  {
    var a' := AdmitStep(a, s, id, now).0;
    AuthIffToken(a', s, a.room.value.adminToken, kv, now);
  }

  /** The frame guests receive does not depend on the admin token: two rooms that differ only
      in their token produce the same STATE_SYNC, which holds no token. */
  lemma SyncFrameHidesToken(r1: Room, r2: Room, count: nat)
    requires r1.(adminToken := None) == r2.(adminToken := None)
    ensures SyncFrame(r1, count) == SyncFrame(r2, count)
    ensures SyncFrame(r1, count).state == r1.(adminToken := None)
  {
  }

  /** The worker's per-room object. `outbox` collects what the room sends and closes. */
  class SigningRoom {
    var roomState: Option<Room>
    var stored: Option<Room>
    var alarm: Option<int>
    var sessions: seq<Session>
    var outbox: seq<Delivery>

    function View(): Actor
      reads this
    {
      Actor(roomState, stored, alarm, sessions)
    }

    /** The object starts from what storage holds under `data`. */
    constructor(stored: Option<Room>, alarm: Option<int>)
      ensures View() == Actor(stored, stored, alarm, []) && outbox == []
    {
      roomState := stored;
      this.stored := stored;
      this.alarm := alarm;
      sessions := [];
      outbox := [];
    }

    method Log(event: string, detail: string, user: string, now: int)
      modifies this
      ensures View() == LogActor(old(View()), event, detail, user, now) && outbox == old(outbox)
    {
      if roomState.None? {
        return;
      }
      roomState := Some(Logged(roomState.value, event, detail, user, now));
      stored := roomState;
    }

    method Broadcast(f: Frame)
      modifies this
      ensures View() == old(View()) && outbox == old(outbox) + BroadcastTo(sessions, f)
    {
      var i := 0;
      while i < |sessions|
        invariant 0 <= i <= |sessions|
        invariant View() == old(View())
        invariant outbox == old(outbox) + BroadcastTo(sessions[..i], f)
      {
        outbox := outbox + [Send(sessions[i].socket, f)];
        assert sessions[..i + 1][..i] == sessions[..i];
        i := i + 1;
      }
      assert sessions[..i] == sessions;
    }

    method CloseSessions(code: nat, reason: string)
      modifies this
      ensures View() == old(View()) && outbox == old(outbox) + CloseAll(sessions, code, reason)
    {
      var i := 0;
      while i < |sessions|
        invariant 0 <= i <= |sessions|
        invariant View() == old(View())
        invariant outbox == old(outbox) + CloseAll(sessions[..i], code, reason)
      {
        outbox := outbox + [Close(sessions[i].socket, code, reason)];
        assert sessions[..i + 1][..i] == sessions[..i];
        i := i + 1;
      }
      assert sessions[..i] == sessions;
    }

    /** `/init`; `ok` is false when the license check throws. */
    method Init(body: InitBody, kv: Licenses.Kv, now: nat) returns (ok: bool)
      modifies this
      ensures (View(), ok) == InitStep(old(View()), body, kv, now) && outbox == old(outbox)
    {
      var room := InitRoom(body, kv, now);
      if room.Err? {
        return false;
      }
      roomState := Some(room.value);
      stored := roomState;
      alarm := Some(room.value.expiresAt);
      ok := true;
    }

    method Unlock(now: int) returns (status: nat)
      modifies this
      ensures var (a, out, code) := UnlockStep(old(View()), now);
        View() == a && outbox == old(outbox) + out && status == code
    {
      if roomState.None? {
        return 404;
      }
      roomState := Some(roomState.value.(isPaid := true));
      Log("Room Unlocked", "Payment confirmed", "System", now);
      Broadcast(RoomUnlocked(None));
      status := 200;
    }

    method Extend(now: int) returns (status: nat)
      modifies this
      ensures var (a, out, code) := ExtendStep(old(View()), now);
        View() == a && outbox == old(outbox) + out && status == code
    {
      if roomState.None? {
        return 404;
      }
      var expiry := ExtendedExpiry(roomState.value.expiresAt, now);
      roomState := Some(roomState.value.(expiresAt := expiry, isExtended := true));
      Log("Time Extended", "+24 Hours added", "System", now);
      stored := roomState;
      alarm := Some(expiry);
      Broadcast(TimeExtended(expiry));
      status := 200;
    }

    /** `handleSession` for socket `s`; `id` stands for the random session id. */
    method HandleSession(s: nat, id: string, now: int)
      modifies this
      ensures var (a, out) := AdmitStep(old(View()), s, id, now); View() == a && outbox == old(outbox) + out
    {
      if roomState.None? {
        outbox := outbox + [Send(s, ErrorNotFound), Close(s, 4004, "Room Not Found")];
        return;
      }
      if |sessions| >= Limit(roomState.value) {
        outbox := outbox + [Close(s, 4001, "Room Full")];
        return;
      }
      if roomState.value.isLocked {
        outbox := outbox + [Send(s, ErrorLocked), Close(s, 1000, "Room is Locked")];
        return;
      }
      sessions := SetSession(sessions, Session(s, Guest, id));
      Log("User Joined", "Session: " + id, "Guest", now);
      Broadcast(ConnectionsUpdate(|sessions|));
      outbox := outbox + [Send(s, SyncFrame(roomState.value, |sessions|))];
    }

    /** The close listener of socket `s`. */
    method OnSocketClose(s: nat, now: int)
      modifies this
      ensures var (a, out) := LeaveStep(old(View()), s, now); View() == a && outbox == old(outbox) + out
    {
      var id := match Registered(sessions, s) case Some(e) => e.id case None => "undefined";
      sessions := RemoveSession(sessions, s);
      Broadcast(ConnectionsUpdate(|sessions|));
      Log("User Left", "Session ID: " + id, "Guest", now);
    }

    /** The teardown `alarm()` and `CLOSE_ROOM` share: delete storage, drop the room, close
        every socket with code 1000 and `reason`. */
    method Teardown(reason: string)
      modifies this
      ensures View() == old(View()).(room := None, stored := None)
      ensures outbox == old(outbox) + CloseAll(sessions, 1000, reason)
    {
      stored := None;
      roomState := None;
      CloseSessions(1000, reason);
    }

    method Alarm()
      modifies this
      ensures var (a, out) := AlarmStep(old(View())); View() == a && outbox == old(outbox) + out
    {
      Teardown("Expired");
    }

    /** The message listener of socket `s`. */
    method HandleMessage(s: nat, m: ClientMsg, kv: Licenses.Kv, now: nat)
      modifies this
      ensures var (a, out) := MessageStep(old(View()), s, m, kv, now); View() == a && outbox == old(outbox) + out
    {
      if roomState.None? {
        return;
      }
      match m {
        case VerifyLicense(key) => OnVerifyLicense(s, key, kv, now);
        case Auth(token) => OnAuth(s, token, now);
        case UpdateLabel(fp, name) => OnUpdateLabel(s, fp, name, now);
        case RenameRoom(name) => OnRenameRoom(s, name, now);
        case LogAction(action, detail) =>
          var user := UserLabel(sessions, s);
          Log(action, detail.GetOr(""), user, now);
          Broadcast(LogUpdate(roomState.value.auditLog));
        case UploadPartial(data, signer, signerId) => OnUploadPartial(s, data, signer, signerId, now);
        case CloseRoom => OnCloseRoom(s, now);
        case UpdateWhitelist(address, remove) => OnUpdateWhitelist(s, address, remove, now);
        case ToggleLock(locked) => OnToggleLock(s, locked, now);
        case Unrecognised =>
      }
    }

    method OnVerifyLicense(s: nat, key: string, kv: Licenses.Kv, now: nat)
      requires roomState.Some?
      modifies this
      ensures var (a, out) := VerifyLicenseStep(old(View()), s, key, kv, now); View() == a && outbox == old(outbox) + out
    {
      if roomState.value.tier == "enterprise" && roomState.value.isPaid {
        return;
      }
      var license := Licenses.Validate(kv, key, now);
      if license.Err? || license.value.None? {
        return;
      }
      var user := UserLabel(sessions, s);
      roomState := Some(roomState.value.(tier := "enterprise", isPaid := true));
      var expiry := roomState.value.expiresAt;
      if expiry - now < DayMs {
        expiry := now + DayMs;
        roomState := Some(roomState.value.(expiresAt := expiry));
        alarm := Some(expiry);
      }
      stored := roomState;
      Log("License Verified", "Type: " + license.value.value.kind, user, now);
      Broadcast(RoomUnlocked(Some(expiry)));
    }

    method OnAuth(s: nat, token: Option<string>, now: int)
      requires roomState.Some?
      modifies this
      ensures var (a, out) := AuthStep(old(View()), s, token, now); View() == a && outbox == old(outbox) + out
    {
      if token != roomState.value.adminToken {
        return;
      }
      var user := UserLabel(sessions, s);
      var entry := match Registered(sessions, s) case Some(e) => e case None => Session(s, Guest, "undefined");
      sessions := SetSession(sessions, entry.(role := Admin));
      outbox := outbox + [Send(s, RoleUpdate)];
      Log("Role Claimed", "User became Coordinator", user, now);
    }

    method OnUpdateLabel(s: nat, fingerprint: string, name: string, now: int)
      requires roomState.Some?
      modifies this
      ensures var (a, out) := UpdateLabelStep(old(View()), s, fingerprint, name, now); View() == a && outbox == old(outbox) + out
    {
      if !IsAdmin(sessions, s) {
        return;
      }
      roomState := Some(roomState.value.(signerLabels := roomState.value.signerLabels[fingerprint := name]));
      stored := roomState;
      Log("Label Updated", fingerprint + " -> " + name, UserLabel(sessions, s), now);
      Broadcast(LabelsUpdated(roomState.value.signerLabels));
    }

    method OnRenameRoom(s: nat, newName: string, now: int)
      requires roomState.Some?
      modifies this
      ensures var (a, out) := RenameRoomStep(old(View()), s, newName, now); View() == a && outbox == old(outbox) + out
    {
      if !IsAdmin(sessions, s) || roomState.value.tier != "enterprise" {
        return;
      }
      var oldName := roomState.value.roomName;
      roomState := Some(roomState.value.(roomName := newName));
      stored := roomState;
      Log("Room Renamed", oldName + " -> " + newName, UserLabel(sessions, s), now);
      Broadcast(RoomRenamed(newName));
    }

    method OnUploadPartial(s: nat, data: Upload, signer: Option<string>, signerId: Option<string>, now: int)
      requires roomState.Some?
      modifies this
      ensures var (a, out) := UploadStep(old(View()), s, data, signer, signerId, now); View() == a && outbox == old(outbox) + out
    {
      if Oversized(data) {
        return;
      }
      if |roomState.value.signatures| >= MaxSignatures {
        outbox := outbox + [Send(s, ErrorMessage(SignatureLimitText))];
        return;
      }
      roomState := Some(roomState.value.(signatures := roomState.value.signatures + [data]));
      var detail := if signer.Some? && signer.value != "" then "Signer: " + signer.value else "Unknown Signer";
      Log("Signature Uploaded", detail, UserLabel(sessions, s), now);
      stored := roomState;
      Broadcast(NewPartialData(data, signerId, roomState.value.auditLog));
    }

    method OnCloseRoom(s: nat, now: int)
      requires roomState.Some?
      modifies this
      ensures var (a, out) := CloseRoomStep(old(View()), s, now); View() == a && outbox == old(outbox) + out
    {
      if !IsAdmin(sessions, s) {
        return;
      }
      Log("Room Destroyed", "Coordinator closed session", "Coordinator", now);
      Broadcast(RoomClosed(roomState.value.auditLog));
      Teardown("Closed");
    }

    method OnUpdateWhitelist(s: nat, address: string, remove: bool, now: int)
      requires roomState.Some?
      modifies this
      ensures var (a, out) := UpdateWhitelistStep(old(View()), s, address, remove, now); View() == a && outbox == old(outbox) + out
    {
      if !IsAdmin(sessions, s) {
        return;
      }
      var updated := NewWhitelist(roomState.value.whitelist, address, remove);
      roomState := Some(roomState.value.(whitelist := updated));
      stored := roomState;
      Log("Whitelist Updated", (if remove then "Removed" else "Added") + " " + address, UserLabel(sessions, s), now);
      Broadcast(WhitelistUpdated(updated));
    }

    method OnToggleLock(s: nat, locked: bool, now: int)
      requires roomState.Some?
      modifies this
      ensures var (a, out) := ToggleLockStep(old(View()), s, locked, now); View() == a && outbox == old(outbox) + out
    {
      if !IsAdmin(sessions, s) {
        return;
      }
      roomState := Some(roomState.value.(isLocked := locked));
      stored := roomState;
      Log("Security Alert", "Room " + (if locked then "LOCKED" else "UNLOCKED"), "Coordinator", now);
      Broadcast(LockUpdated(roomState.value.isLocked));
    }
  }
}
