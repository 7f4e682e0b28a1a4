/** The client's socket service: the connection flags, the room-state reducer driven by the
    server's messages, and the two places the client itself sends partial data and labels. */
module SocketClient {
  import opened Common
  import opened Psbt
  import opened PsbtTools
  import Encryption

  datatype Status = Disconnected | Connecting | Connected | Failed
  datatype Role = Guest | Admin

  /** Where the service's WebSocket is: none (never opened, or dropped by `disconnect`, which
      also detaches the close handler), opening, open, or closed by the peer with the handler
      still attached. */
  datatype Socket = NoSocket | Opening | Open | Closed

  datatype AuditEntry = AuditEntry(timestamp: int, event: string, detail: Option<string>, user: string)

  /** The client's `RoomState`. */
  datatype RoomState = RoomState(
    roomId: string,
    roomName: string,
    tier: string,
    isPaid: bool,
    isGenesis: Option<bool>,
    network: string,
    psbt: string,
    signatures: seq<string>,
    connectedCount: int,
    createdAt: int,
    expiresAt: int,
    isExtended: bool,
    isLocked: bool,
    auditLog: seq<AuditEntry>,
    signerLabels: map<string, string>,
    whitelist: seq<string>)

  /** A stored signature as the server relays it: the `{ encryptedData }` envelope an upload
      carries, a bare string, or any other JSON value. */
  datatype SigEntry = Envelope(encryptedData: Option<string>) | Plain(text: string) | OtherValue

  /** The fields of a `STATE_SYNC` message; an absent field leaves the initial default. */
  datatype SyncMsg = SyncMsg(
    roomId: string,
    roomName: Option<string>,
    tier: Option<string>,
    isPaid: Option<bool>,
    isGenesis: Option<bool>,
    network: Option<string>,
    connectedCount: Option<int>,
    createdAt: Option<int>,
    expiresAt: Option<int>,
    isExtended: Option<bool>,
    isLocked: Option<bool>,
    auditLog: Option<seq<AuditEntry>>,
    signerLabels: Option<map<string, string>>,
    whitelist: Option<seq<string>>,
    encryptedPsbt: Option<string>,
    psbt: Option<string>,
    signatures: Option<seq<SigEntry>>)

  /** The messages `handleMessage` dispatches on; any other type is `Unhandled`. */
  datatype Incoming =
    | StateSync(sync: SyncMsg)
    | NewPartialData(encryptedData: Option<string>, auditLog: Option<seq<AuditEntry>>)
    | LabelsUpdated(signerLabels: map<string, string>)
    | RoomRenamed(name: string)
    | LogUpdate(log: seq<AuditEntry>)
    | ConnectionsUpdate(count: int)
    | RoleUpdate(role: string)
    | RoomClosed(finalLog: Option<seq<AuditEntry>>)
    | TimeExtended(expiresAt: int)
    | RoomUnlocked
    | WhitelistUpdated(whitelist: seq<string>)
    | LockUpdated(isLocked: bool)
    | ErrorLocked
    | ErrorNotFound
    | Unhandled

  /** Frames the service sends to the room. */
  datatype Outgoing =
    | VerifyLicense(key: string)
    | Auth(token: string)
    | UploadPartial(encryptedData: string, signer: Option<string>)
    | UpdateLabel(fingerprint: string, name: string)
    | LogAction(action: string, detail: string)

  /** Every field of the service but the foreign calls and the outbox. */
  datatype ClientView = ClientView(
    status: Status,
    role: Role,
    roomState: Option<RoomState>,
    isRoomFull: bool,
    isClosed: bool,
    isLockedOut: bool,
    roomNotFound: bool,
    decryptionError: Option<string>,
    encryptionKey: Option<string>,
    ws: Socket)

  const KeyMissing: string := "Decryption Key Missing"

  /** A truthy key: present and not empty. */
  predicate KeyPresent(key: Option<string>) {
    key.Some? && key.value != ""
  }

  /** The text a missing key turns into when it reaches `atob`. */
  function KeyText(key: Option<string>): string {
    if key.Some? then key.value else "null"
  }

  /** `getInitialState`. */
  function InitialState(roomId: string, now: int): (s: RoomState)
    ensures s.psbt == "" && s.signatures == [] && s.tier == "free" && s.isPaid
    ensures s.expiresAt == now + 1200000
  {
    RoomState(roomId, "Signing Room", "free", true, None, "bitcoin", "", [], 0, now, now + 1200000,
      false, false, [], map[], [])
  }

  /** The state the constructor and `reset` leave (the socket aside). */
  function ResetView(v: ClientView): ClientView {
    v.(roomState := None, role := Guest, isClosed := false, encryptionKey := None,
       decryptionError := None, isLockedOut := false, isRoomFull := false, roomNotFound := false)
  }

  /** `disconnect(false)`. */
  function DisconnectView(v: ClientView): ClientView {
    v.(ws := NoSocket, status := Disconnected)
  }

  // ---------------------------------------------------------------------------------------
  // The reducer
  // ---------------------------------------------------------------------------------------

  /** A message that cannot be read without the key: an encrypted master PSBT or a new partial. */
  predicate NeedsKey(m: Incoming) {
    || (m.StateSync? && m.sync.encryptedPsbt.Some? && m.sync.encryptedPsbt.value != "")
    || m.NewPartialData?
  }

  /** The master PSBT of a sync: decrypted when encrypted, else the plain field or "", then
      normalised. */
  function MasterOf(crypto: Encryption.Primitives, lib: PsbtLib, key: Option<string>, sync: SyncMsg): Result<string, Encryption.CryptoError> {
    if sync.encryptedPsbt.Some? && sync.encryptedPsbt.value != "" then
      match Encryption.DecryptSpec(crypto, sync.encryptedPsbt.value, KeyText(key))
      case Err(e) => Err(e)
      case Ok(text) => Ok(NormalizePsbt(lib, text))
    else Ok(NormalizePsbt(lib, OrDefault(sync.psbt, "")))
  }

  /** What one stored signature adds to the history: its normalised decryption, its normalised
      text, or nothing. */
  function EntryText(crypto: Encryption.Primitives, lib: PsbtLib, key: Option<string>, e: SigEntry): Result<seq<string>, Encryption.CryptoError> {
    match e
    case Envelope(data) =>
      if data.Some? && data.value != "" then
        match Encryption.DecryptSpec(crypto, data.value, KeyText(key))
        case Err(err) => Err(err)
        case Ok(text) => Ok([NormalizePsbt(lib, text)])
      else Ok([])
    case Plain(text) => Ok([NormalizePsbt(lib, text)])
    case OtherValue => Ok([])
  }

  /** The decrypted history, or the first decryption failure. */
  function HistoryOf(crypto: Encryption.Primitives, lib: PsbtLib, key: Option<string>, sigs: seq<SigEntry>): Result<seq<string>, Encryption.CryptoError> {
    Collect(sigs, e => EntryText(crypto, lib, key, e))
  }

  /** The state `handleStateSync` sets: the message's fields over the initial defaults, with
      the merged PSBT and the decrypted history. */
  function SyncedState(sync: SyncMsg, psbt: string, history: seq<string>, now: int): RoomState {
    var init := InitialState(sync.roomId, now);
    RoomState(
      sync.roomId,
      sync.roomName.GetOr(init.roomName),
      sync.tier.GetOr(init.tier),
      sync.isPaid.GetOr(init.isPaid),
      if sync.isGenesis.Some? then sync.isGenesis else init.isGenesis,
      sync.network.GetOr(init.network),
      psbt,
      history,
      sync.connectedCount.GetOr(init.connectedCount),
      sync.createdAt.GetOr(init.createdAt),
      sync.expiresAt.GetOr(init.expiresAt),
      sync.isExtended.GetOr(init.isExtended),
      sync.isLocked.GetOr(init.isLocked),
      sync.auditLog.GetOr(init.auditLog),
      sync.signerLabels.GetOr(init.signerLabels),
      sync.whitelist.GetOr(init.whitelist))
  }

  function SyncOutcome(crypto: Encryption.Primitives, lib: PsbtLib, key: Option<string>, sync: SyncMsg, now: int): Result<RoomState, Encryption.CryptoError> {
    match MasterOf(crypto, lib, key, sync)
    case Err(e) => Err(e)
    case Ok(master) =>
      match HistoryOf(crypto, lib, key, sync.signatures.GetOr([]))
      case Err(e) => Err(e)
      case Ok(history) => Ok(SyncedState(sync, MergeAll(lib, master, history), history, now))
  }

  /** `handleNewPartial`'s update of the current state with a decrypted partial. */
  function WithPartial(lib: PsbtLib, s: RoomState, decrypted: string, log: Option<seq<AuditEntry>>): RoomState {
    s.(psbt := MergePsbts(lib, s.psbt, decrypted), signatures := s.signatures + [decrypted], auditLog := log.GetOr(s.auditLog))
  }

  /** `roomState.update(s => s ? f(s) : null)` for the field-replacing messages. */
  function Delta(s: RoomState, m: Incoming): RoomState {
    match m
    case LabelsUpdated(labels) => s.(signerLabels := labels)
    case RoomRenamed(name) => s.(roomName := name)
    case LogUpdate(log) => s.(auditLog := log)
    case ConnectionsUpdate(count) => s.(connectedCount := count)
    case TimeExtended(expiresAt) => s.(expiresAt := expiresAt)
    case RoomUnlocked => s.(isPaid := true)
    case WhitelistUpdated(whitelist) => s.(whitelist := whitelist)
    case LockUpdated(locked) => s.(isLocked := locked)
    case _ => s
  }

  predicate IsDelta(m: Incoming) {
    m.LabelsUpdated? || m.RoomRenamed? || m.LogUpdate? || m.ConnectionsUpdate? || m.TimeExtended?
    || m.RoomUnlocked? || m.WhitelistUpdated? || m.LockUpdated?
  }

  /** `handleStateSync`: the synced state, or no change when a decryption throws. */
  function SyncStep(v: ClientView, sync: SyncMsg, crypto: Encryption.Primitives, lib: PsbtLib, now: int): ClientView {
    match SyncOutcome(crypto, lib, v.encryptionKey, sync, now)
    case Err(_) => v
    case Ok(s) => v.(roomState := Some(s))
  }

  /** `handleNewPartial`: no change without data, when the decryption throws, or without a
      current state. */
  function PartialStep(v: ClientView, data: Option<string>, log: Option<seq<AuditEntry>>, crypto: Encryption.Primitives, lib: PsbtLib): ClientView {
    if !(data.Some? && data.value != "") then v
    else
      match Encryption.DecryptSpec(crypto, data.value, KeyText(v.encryptionKey))
      case Err(_) => v
      case Ok(decrypted) =>
        v.(roomState := if v.roomState.Some? then Some(WithPartial(lib, v.roomState.value, decrypted, log)) else None)
  }

  /** `handleMessage` as a function of the service's state. A decryption that throws is caught,
      and leaves everything as it was. */
  function Step(v: ClientView, m: Incoming, crypto: Encryption.Primitives, lib: PsbtLib, now: int): ClientView {
    if !KeyPresent(v.encryptionKey) && NeedsKey(m) then v.(decryptionError := Some(KeyMissing))
    else
      match m
      case StateSync(sync) => SyncStep(v, sync, crypto, lib, now)
      case NewPartialData(data, log) => PartialStep(v, data, log, crypto, lib)
      case _ => SimpleStep(v, m)
  }

  /** The messages that need neither the key nor the PSBT library: the role, the terminal
      messages and the field messages. */
  function SimpleStep(v: ClientView, m: Incoming): ClientView
    requires !m.StateSync? && !m.NewPartialData?
  {
    match m
    case RoleUpdate(role) => if role == "admin" then v.(role := Admin) else v
    case RoomClosed(finalLog) =>
      var logged := if finalLog.Some? && v.roomState.Some? then Some(v.roomState.value.(auditLog := finalLog.value)) else v.roomState;
      DisconnectView(v.(roomState := logged, isClosed := true))
    case ErrorLocked => DisconnectView(v.(isLockedOut := true))
    case ErrorNotFound => DisconnectView(v.(roomNotFound := true))
    case Unhandled => v
    case _ => v.(roomState := if v.roomState.Some? then Some(Delta(v.roomState.value, m)) else None)
  }

  /** Such a message is handled whether or not the key is present. */
  lemma StepOfSimple(v: ClientView, m: Incoming, crypto: Encryption.Primitives, lib: PsbtLib, now: int)
    requires !m.StateSync? && !m.NewPartialData?
    ensures Step(v, m, crypto, lib, now) == SimpleStep(v, m)
  {
  }

  /** The `onclose` handler: disconnected, back to guest; 4001 marks the room full and ends
      there; any other code asks for a reconnect unless the room was closed. With no handler
      attached nothing happens. */
  function CloseStep(v: ClientView, code: int): (ClientView, bool) {
    if v.ws.NoSocket? then (v, false)
    else
      var w := v.(status := Disconnected, role := Guest, ws := Closed);
      if code == 4001 then (w.(isRoomFull := true), false)
      else (w, !v.isClosed)
  }

  // ---------------------------------------------------------------------------------------
  // Properties of the reducer
  // ---------------------------------------------------------------------------------------

  /** Without a key, a message that needs one only records the error. */
  lemma MissingKeyOnlyFlags(v: ClientView, m: Incoming, crypto: Encryption.Primitives, lib: PsbtLib, now: int)
    requires !KeyPresent(v.encryptionKey) && NeedsKey(m)
    ensures Step(v, m, crypto, lib, now).decryptionError == Some(KeyMissing)
    ensures Step(v, m, crypto, lib, now).(decryptionError := v.decryptionError) == v
  {
  }

  /** Each field message replaces its own field of the room state and nothing else; without a
      room state it changes nothing. */
  lemma DeltaReplacesOneField(v: ClientView, m: Incoming, crypto: Encryption.Primitives, lib: PsbtLib, now: int)
    requires IsDelta(m)
    ensures var after := Step(v, m, crypto, lib, now);
      && after.(roomState := v.roomState) == v
      && (v.roomState.None? ==> after.roomState.None?)
      && (v.roomState.Some? ==> (after.roomState.Some? &&
          var s, t := v.roomState.value, after.roomState.value;
          && (m.LabelsUpdated? ==> t == s.(signerLabels := m.signerLabels))
          && (m.RoomRenamed? ==> t == s.(roomName := m.name))
          && (m.LogUpdate? ==> t == s.(auditLog := m.log))
          && (m.ConnectionsUpdate? ==> t == s.(connectedCount := m.count))
          && (m.TimeExtended? ==> t == s.(expiresAt := m.expiresAt))
          && (m.RoomUnlocked? ==> t == s.(isPaid := true))
          && (m.WhitelistUpdated? ==> t == s.(whitelist := m.whitelist))
          && (m.LockUpdated? ==> t == s.(isLocked := m.isLocked))))
  {
    StepOfSimple(v, m, crypto, lib, now);
  }

  /** `ROOM_CLOSED`, `ERROR_LOCKED` and `ERROR_NOT_FOUND` set their flag and drop the socket. */
  lemma TerminalMessagesDisconnect(v: ClientView, m: Incoming, crypto: Encryption.Primitives, lib: PsbtLib, now: int)
    requires m.RoomClosed? || m.ErrorLocked? || m.ErrorNotFound?
    ensures var after := Step(v, m, crypto, lib, now);
      && after.status == Disconnected && after.ws == NoSocket
      && (m.RoomClosed? ==> after.isClosed)
      && (m.ErrorLocked? ==> after.isLockedOut)
      && (m.ErrorNotFound? ==> after.roomNotFound)
      && after.encryptionKey == v.encryptionKey && after.role == v.role
  {
    StepOfSimple(v, m, crypto, lib, now);
  }

  /** Only a `ROLE_UPDATE` naming admin makes the client the coordinator. */
  lemma AdminOnlyByRoleUpdate(v: ClientView, m: Incoming, crypto: Encryption.Primitives, lib: PsbtLib, now: int)
    requires v.role == Guest
    ensures Step(v, m, crypto, lib, now).role == Admin <==> m == RoleUpdate("admin")
  {
  }

  /** A sync whose master or history does not decrypt leaves the state untouched. */
  lemma SyncFailureChangesNothing(v: ClientView, sync: SyncMsg, crypto: Encryption.Primitives, lib: PsbtLib, now: int)
    requires SyncOutcome(crypto, lib, v.encryptionKey, sync, now).Err?
    ensures Step(v, StateSync(sync), crypto, lib, now) == v || Step(v, StateSync(sync), crypto, lib, now) == v.(decryptionError := Some(KeyMissing))
  {
  }

  /** A successful sync sets `signatures` to the history, `psbt` to the left fold of merges
      over it from the normalised master, and copies each field the message carries (the
      connection count among them). */
  lemma SyncSetsState(v: ClientView, sync: SyncMsg, crypto: Encryption.Primitives, lib: PsbtLib, now: int)
    requires KeyPresent(v.encryptionKey) || !NeedsKey(StateSync(sync))
    requires MasterOf(crypto, lib, v.encryptionKey, sync).Ok?
    requires HistoryOf(crypto, lib, v.encryptionKey, sync.signatures.GetOr([])).Ok?
    ensures var after := Step(v, StateSync(sync), crypto, lib, now);
      var history := HistoryOf(crypto, lib, v.encryptionKey, sync.signatures.GetOr([])).value;
      && after.roomState.Some?
      && after.roomState.value.signatures == history
      && after.roomState.value.psbt == MergeAll(lib, MasterOf(crypto, lib, v.encryptionKey, sync).value, history)
      && (sync.connectedCount.Some? ==> after.roomState.value.connectedCount == sync.connectedCount.value)
      && (sync.tier.Some? ==> after.roomState.value.tier == sync.tier.value)
      && (sync.auditLog.Some? ==> after.roomState.value.auditLog == sync.auditLog.value)
      && after.(roomState := v.roomState) == v
  {
  }

  /** A new partial appends exactly one decrypted entry and merges it into the PSBT. */
  lemma NewPartialAppends(v: ClientView, data: string, log: Option<seq<AuditEntry>>, crypto: Encryption.Primitives, lib: PsbtLib, now: int)
    requires KeyPresent(v.encryptionKey) && data != "" && v.roomState.Some?
    requires Encryption.DecryptSpec(crypto, data, KeyText(v.encryptionKey)).Ok?
    ensures var after := Step(v, NewPartialData(Some(data), log), crypto, lib, now);
      var decrypted := Encryption.DecryptSpec(crypto, data, KeyText(v.encryptionKey)).value;
      var s := v.roomState.value;
      && after.roomState.Some?
      && after.roomState.value.signatures == s.signatures + [decrypted]
      && |after.roomState.value.signatures| == |s.signatures| + 1
      && after.roomState.value.psbt == MergePsbts(lib, s.psbt, decrypted)
      && after.roomState.value.auditLog == (if log.Some? then log.value else s.auditLog)
      && after.roomState.value.(psbt := s.psbt, signatures := s.signatures, auditLog := s.auditLog) == s
  {
  }

  /** A new-partial message without encrypted data changes nothing. */
  lemma EmptyPartialIgnored(v: ClientView, data: Option<string>, log: Option<seq<AuditEntry>>, crypto: Encryption.Primitives, lib: PsbtLib, now: int)
    requires KeyPresent(v.encryptionKey) && (data.None? || data.value == "")
    ensures Step(v, NewPartialData(data, log), crypto, lib, now) == v
  {
  }

  /** `e` is the envelope `uploadSignature` makes of `plain` with key `key` and IV `iv`. */
  ghost predicate IsUpload(crypto: Encryption.Primitives, key: string, plain: string, iv: seq<byte>, e: SigEntry) {
    && |iv| == Encryption.IvLength
    && Encryption.EncryptSpec(crypto, plain, key, iv).Ok?
    && e == Envelope(Some(Encryption.EncryptSpec(crypto, plain, key, iv).value)) && e.encryptedData.value != ""
  }

  /** One envelope made by `encrypt` under the room key reads back as its normalised plaintext. */
  lemma UploadEntry(crypto: Encryption.Primitives, lib: PsbtLib, key: string, plain: string, iv: seq<byte>, e: SigEntry)
    requires Encryption.Sound(crypto) && Encryption.RawKey(crypto, key).Ok?
    requires IsUpload(crypto, key, plain, iv, e)
    ensures EntryText(crypto, lib, Some(key), e) == Ok([NormalizePsbt(lib, plain)])
  {
    Encryption.RoundTrip(crypto, plain, key, iv);
  }

  /** Envelopes made by `encrypt` under the room key come back, in order, as the normalised
      plaintexts that were uploaded. */
  lemma HistoryOfUploads(crypto: Encryption.Primitives, lib: PsbtLib, key: string, plain: seq<string>, ivs: seq<seq<byte>>, sigs: seq<SigEntry>)
    requires Encryption.Sound(crypto) && Encryption.RawKey(crypto, key).Ok?
    requires |ivs| == |plain| == |sigs|
    requires forall i :: 0 <= i < |sigs| ==> IsUpload(crypto, key, plain[i], ivs[i], sigs[i])
    ensures var h := HistoryOf(crypto, lib, Some(key), sigs);
      h.Ok? && |h.value| == |plain| && forall i :: 0 <= i < |plain| ==> h.value[i] == NormalizePsbt(lib, plain[i])
  {
    var texts := seq(|plain|, i requires 0 <= i < |plain| => NormalizePsbt(lib, plain[i]));
    forall i | 0 <= i < |sigs|
      ensures EntryText(crypto, lib, Some(key), sigs[i]) == Ok([texts[i]])
    {
      UploadEntry(crypto, lib, key, plain[i], ivs[i], sigs[i]);
    }
    CollectSingletons(sigs, e => EntryText(crypto, lib, Some(key), e), texts);
  }

  /** The `onclose` policy: a full room never reconnects; otherwise the client reconnects
      unless the coordinator closed the room. */
  lemma ClosePolicy(v: ClientView, code: int)
    requires !v.ws.NoSocket?
    ensures var (after, reconnect) := CloseStep(v, code);
      && after.status == Disconnected && after.role == Guest
      && (code == 4001 ==> after.isRoomFull && !reconnect)
      && (code != 4001 ==> (reconnect <==> !v.isClosed) && after.isRoomFull == v.isRoomFull)
      && after.roomState == v.roomState && after.encryptionKey == v.encryptionKey
  {
  }

  // ---------------------------------------------------------------------------------------
  // Outgoing frames
  // ---------------------------------------------------------------------------------------

  /** The frame `uploadSignature` sends, or None: no key (nothing happens) or an encryption
      that rejects (the promise rejects before anything is sent). */
  function UploadFrame(v: ClientView, crypto: Encryption.Primitives, lib: PsbtLib, partial: string, iv: seq<byte>): Option<Outgoing> {
    if !KeyPresent(v.encryptionKey) then None
    else
      var payload := if v.roomState.Some? && v.roomState.value.psbt != "" then MergePsbts(lib, v.roomState.value.psbt, partial) else partial;
      match Encryption.EncryptSpec(crypto, payload, v.encryptionKey.value, iv)
      case Err(_) => None
      case Ok(encrypted) => Some(UploadPartial(encrypted, FingerprintOf(lib, partial)))
  }

  /** What an upload carries decrypts, under the room key, to the partial merged into the
      current PSBT (or the partial itself when there is none yet). */
  lemma UploadDecryptsToMerged(v: ClientView, crypto: Encryption.Primitives, lib: PsbtLib, partial: string, iv: seq<byte>)
    requires Encryption.Sound(crypto) && KeyPresent(v.encryptionKey)
    requires Encryption.RawKey(crypto, v.encryptionKey.value).Ok? && |iv| == Encryption.IvLength
    ensures UploadFrame(v, crypto, lib, partial, iv).Some?
    ensures var frame := UploadFrame(v, crypto, lib, partial, iv).value;
      && frame.signer == FingerprintOf(lib, partial)
      && Encryption.DecryptSpec(crypto, frame.encryptedData, v.encryptionKey.value) ==
         Ok(if v.roomState.Some? && v.roomState.value.psbt != "" then MergePsbts(lib, v.roomState.value.psbt, partial) else partial)
  {
    var payload := if v.roomState.Some? && v.roomState.value.psbt != "" then MergePsbts(lib, v.roomState.value.psbt, partial) else partial;
    Encryption.RoundTrip(crypto, payload, v.encryptionKey.value, iv);
  }

  /** The signer list the service computes from a state: none without a PSBT. */
  function SignersOfState(lib: PsbtLib, s: Option<RoomState>): seq<SignerStatus> {
    if s.None? || s.value.psbt == "" then [] else SignersOf(lib, s.value.psbt)
  }

  /** The label requests `checkAndApplyLocalLabels` sends: one for every listed signer that has
      no label in the room and a non-empty name in the address book. */
  function LabelRequests(signers: seq<SignerStatus>, labels: map<string, string>, book: map<string, string>): seq<Outgoing> {
    if signers == [] then []
    else
      var fp := signers[|signers| - 1].fingerprint;
      LabelRequests(signers[..|signers| - 1], labels, book)
        + (if (fp !in labels || labels[fp] == "") && fp in book && book[fp] != "" then [UpdateLabel(fp, book[fp])] else [])
  }

  /** One more signer adds at most its own request. */
  lemma LabelRequestsStep(signers: seq<SignerStatus>, labels: map<string, string>, book: map<string, string>, i: nat)
    requires i < |signers|
    ensures var fp := signers[i].fingerprint;
      LabelRequests(signers[..i + 1], labels, book) == LabelRequests(signers[..i], labels, book)
        + (if (fp !in labels || labels[fp] == "") && fp in book && book[fp] != "" then [UpdateLabel(fp, book[fp])] else [])
  {
    assert signers[..i + 1][..i] == signers[..i];
  }

  /** Every label request names a listed, unlabelled signer and the name saved for it. */
  lemma {:induction false} LabelRequestsSound(signers: seq<SignerStatus>, labels: map<string, string>, book: map<string, string>)
    ensures |LabelRequests(signers, labels, book)| <= |signers|
    ensures forall r :: r in LabelRequests(signers, labels, book) ==>
      && r.UpdateLabel?
      && HasFingerprint(signers, r.fingerprint)
      && (r.fingerprint !in labels || labels[r.fingerprint] == "")
      && r.fingerprint in book && r.name == book[r.fingerprint] && r.name != ""
  {
    if signers != [] {
      var init := signers[..|signers| - 1];
      LabelRequestsSound(init, labels, book);
      forall r | r in LabelRequests(init, labels, book) ensures HasFingerprint(signers, r.fingerprint) {
        var i :| 0 <= i < |init| && init[i].fingerprint == r.fingerprint;
        assert signers[i] == init[i];
      }
    }
  }

  /** A signer that is listed, unlabelled and saved in the address book gets its request. */
  lemma {:induction false} LabelRequestsComplete(signers: seq<SignerStatus>, labels: map<string, string>, book: map<string, string>, i: nat)
    requires i < |signers|
    requires (signers[i].fingerprint !in labels || labels[signers[i].fingerprint] == "")
    requires signers[i].fingerprint in book && book[signers[i].fingerprint] != ""
    ensures UpdateLabel(signers[i].fingerprint, book[signers[i].fingerprint]) in LabelRequests(signers, labels, book)
  {
    if i < |signers| - 1 {
      LabelRequestsComplete(signers[..|signers| - 1], labels, book, i);
    }
  }

  class SocketService {
    const crypto: Encryption.Primitives
    const lib: PsbtLib

    var status: Status
    var role: Role
    var roomState: Option<RoomState>
    var isRoomFull: bool
    var isClosed: bool
    var isLockedOut: bool
    var roomNotFound: bool
    var decryptionError: Option<string>
    var encryptionKey: Option<string>
    var ws: Socket
    /** Every frame written to an open socket, oldest first. */
    var outbox: seq<Outgoing>

    function View(): ClientView
      reads this
    {
      ClientView(status, role, roomState, isRoomFull, isClosed, isLockedOut, roomNotFound, decryptionError, encryptionKey, ws)
    }

    constructor(crypto: Encryption.Primitives, lib: PsbtLib)
      ensures this.crypto == crypto && this.lib == lib
      ensures View() == ClientView(Disconnected, Guest, None, false, false, false, false, None, None, NoSocket)
      ensures outbox == []
    {
      this.crypto := crypto;
      this.lib := lib;
      status := Disconnected;
      role := Guest;
      roomState := None;
      isRoomFull := false;
      isClosed := false;
      isLockedOut := false;
      roomNotFound := false;
      decryptionError := None;
      encryptionKey := None;
      ws := NoSocket;
      outbox := [];
    }

    /** `signers`, `signerCount` and `isReadyToBroadcast`. */
    function Signers(): seq<SignerStatus>
      reads this
    {
      SignersOfState(lib, roomState)
    }

    function SignerCount(): (n: nat)
      reads this
      ensures n <= |Signers()|
    {
      CountSigned(Signers())
    }

    predicate ReadyToBroadcast()
      reads this
    {
      IsReadyToBroadcast(Signers())
    }

    /** `isCoordinator`. */
    predicate IsCoordinator()
      reads this
    {
      role == Admin
    }

    /** `reset`. */
    method Reset()
      modifies this
      ensures View() == ResetView(old(View()))
      ensures outbox == old(outbox)
    {
      roomState := None;
      role := Guest;
      isClosed := false;
      encryptionKey := None;
      decryptionError := None;
      isLockedOut := false;
      isRoomFull := false;
      roomNotFound := false;
    }

    /** `disconnect(clearState)`: detach the close handler and drop the socket. */
    method Disconnect(clearState: bool)
      modifies this
      ensures View() == (if clearState then ResetView(DisconnectView(old(View()))) else DisconnectView(old(View())))
      ensures outbox == old(outbox)
    {
      if ws != NoSocket {
        ws := NoSocket;
      }
      status := Disconnected;
      if clearState {
        Reset();
      }
    }

    /** `connect(roomId, key)`: a clean state for the room, the key from the link, a new socket. */
    method Connect(roomId: string, key: Option<string>, now: int)
      modifies this
      ensures View() == ResetView(old(View())).(encryptionKey := key, roomState := Some(InitialState(roomId, now)), status := Connecting, ws := Opening)
      ensures outbox == old(outbox)
    {
      Reset();
      encryptionKey := key;
      roomState := Some(InitialState(roomId, now));
      if ws != NoSocket {
        Disconnect(false);
      }
      status := Connecting;
      ws := Opening;
    }

    /** `send`: only an open socket takes a frame. */
    method Send(frame: Outgoing)
      modifies this
      ensures View() == old(View())
      ensures outbox == old(outbox) + (if ws == Open then [frame] else [])
    {
      if ws == Open {
        outbox := outbox + [frame];
      }
    }

    /** `onopen`: connected; then `VERIFY_LICENSE` with a saved license and `AUTH` with a saved
      admin token for this room. */
    method OnOpen(savedLicense: Option<string>, savedToken: Option<string>)
      modifies this
      ensures View() == old(View()).(status := Connected, ws := Open)
      ensures outbox == old(outbox)
        + (if KeyPresent(savedLicense) then [VerifyLicense(savedLicense.value)] else [])
        + (if KeyPresent(savedToken) then [Auth(savedToken.value)] else [])
    {
      status := Connected;
      ws := Open;
      if KeyPresent(savedLicense) {
        Send(VerifyLicense(savedLicense.value));
      }
      if KeyPresent(savedToken) {
        Send(Auth(savedToken.value));
      }
    }

    /** `onerror`. */
    method OnError()
      modifies this
      ensures View() == old(View()).(status := Failed)
      ensures outbox == old(outbox)
    {
      status := Failed;
    }

    /** `onclose`; the result says whether a reconnect is scheduled. */
    method OnClose(code: int) returns (reconnect: bool)
      modifies this
      ensures (View(), reconnect) == CloseStep(old(View()), code)
      ensures outbox == old(outbox)
    {
      if ws == NoSocket {
        return false;
      }
      ws := Closed;
      status := Disconnected;
      role := Guest;
      if code == 4001 {
        isRoomFull := true;
        return false;
      }
      reconnect := !isClosed;
    }

    /** One turn of the first loop of `handleStateSync`. */
    method DecryptEntry(e: SigEntry) returns (r: Result<seq<string>, Encryption.CryptoError>)
      ensures r == EntryText(crypto, lib, encryptionKey, e)
    {
      match e
      case Envelope(data) =>
        if data.Some? && data.value != "" {
          var dec := Encryption.Decrypt(crypto, data.value, KeyText(encryptionKey));
          if dec.Err? {
            return Err(dec.error);
          }
          return Ok([NormalizePsbt(lib, dec.value)]);
        }
        return Ok([]);
      case Plain(text) =>
        return Ok([NormalizePsbt(lib, text)]);
      case OtherValue =>
        return Ok([]);
    }

    /** The first loop of `handleStateSync`: decrypt and normalise the stored signatures. */
    method DecryptHistory(sigs: seq<SigEntry>) returns (r: Result<seq<string>, Encryption.CryptoError>)
      ensures r == HistoryOf(crypto, lib, encryptionKey, sigs)
    {
      var history: seq<string> := [];
      var i := 0;
      while i < |sigs|
        invariant 0 <= i <= |sigs|
        invariant HistoryOf(crypto, lib, encryptionKey, sigs[..i]) == Ok(history)
      {
        assert sigs[..i + 1][..i] == sigs[..i] && sigs[..i + 1][i] == sigs[i];
        var entry := DecryptEntry(sigs[i]);
        if entry.Err? {
          ghost var key := encryptionKey;
          CollectErrSticks(sigs, e => EntryText(crypto, lib, key, e), i + 1);
          return Err(entry.error);
        }
        history := history + entry.value;
        i := i + 1;
      }
      assert sigs[..i] == sigs;
      r := Ok(history);
    }

    /** `handleStateSync`: master, history, then the fold of merges over the history. */
    method SyncState(sync: SyncMsg, now: int) returns (r: Result<RoomState, Encryption.CryptoError>)
      ensures r == SyncOutcome(crypto, lib, encryptionKey, sync, now)
    {
      var master := "";
      if sync.encryptedPsbt.Some? && sync.encryptedPsbt.value != "" {
        var dec := Encryption.Decrypt(crypto, sync.encryptedPsbt.value, KeyText(encryptionKey));
        if dec.Err? {
          return Err(dec.error);
        }
        master := dec.value;
      } else {
        master := OrDefault(sync.psbt, "");
      }
      master := NormalizePsbt(lib, master);
      var history := DecryptHistory(sync.signatures.GetOr([]));
      if history.Err? {
        return Err(history.error);
      }
      var merged := MergeHistory(master, history.value);
      r := Ok(SyncedState(sync, merged, history.value, now));
    }

    /** The second loop of `handleStateSync`: merge every partial of the history into the
        master, in order. */
    method MergeHistory(master: string, history: seq<string>) returns (merged: string)
      ensures merged == MergeAll(lib, master, history)
    {
      merged := master;
      var j := 0;
      while j < |history|
        invariant 0 <= j <= |history|
        invariant merged == MergeAll(lib, master, history[..j])
      {
        MergeAllStep(lib, master, history, j);
        merged := MergePsbts(lib, merged, history[j]);
        j := j + 1;
      }
      assert history[..j] == history;
    }

    /** The `STATE_SYNC` branch of `handleMessage`. */
    method HandleStateSync(sync: SyncMsg, now: int)
      modifies this
      ensures View() == SyncStep(old(View()), sync, crypto, lib, now)
      ensures outbox == old(outbox)
    {
      var synced := SyncState(sync, now);
      if synced.Ok? {
        roomState := Some(synced.value);
      }
    }

    /** The `NEW_PARTIAL_DATA` branch of `handleMessage`. */
    method HandleNewPartial(data: Option<string>, log: Option<seq<AuditEntry>>)
      modifies this
      ensures View() == PartialStep(old(View()), data, log, crypto, lib)
      ensures outbox == old(outbox)
    {
      if data.Some? && data.value != "" {
        var dec := Encryption.Decrypt(crypto, data.value, KeyText(encryptionKey));
        if dec.Ok? {
          roomState := if roomState.Some? then Some(WithPartial(lib, roomState.value, dec.value, log)) else None;
        }
      }
    }

    /** `handleMessage`. */
    method HandleMessage(m: Incoming, now: int)
      modifies this
      ensures View() == Step(old(View()), m, crypto, lib, now)
      ensures outbox == old(outbox)
    {
      if !KeyPresent(encryptionKey) && NeedsKey(m) {
        decryptionError := Some(KeyMissing);
        return;
      }
      if m.StateSync? {
        HandleStateSync(m.sync, now);
      } else if m.NewPartialData? {
        HandleNewPartial(m.encryptedData, m.auditLog);
      } else {
        StepOfSimple(View(), m, crypto, lib, now);
        if m.RoomClosed? || m.ErrorLocked? || m.ErrorNotFound? {
          HandleTerminal(m);
        } else {
          HandleUpdate(m);
        }
      }
    }

    /** The branches of `handleMessage` that end the session: close, lock-out, not found. */
    method HandleTerminal(m: Incoming)
      requires m.RoomClosed? || m.ErrorLocked? || m.ErrorNotFound?
      modifies this
      ensures View() == SimpleStep(old(View()), m)
      ensures outbox == old(outbox)
    {
      match m
      case RoomClosed(finalLog) =>
        if finalLog.Some? && roomState.Some? {
          roomState := Some(roomState.value.(auditLog := finalLog.value));
        }
        isClosed := true;
        Disconnect(false);
      case ErrorLocked =>
        isLockedOut := true;
        Disconnect(false);
      case ErrorNotFound =>
        roomNotFound := true;
        Disconnect(false);
    }

    /** The branches of `handleMessage` that update one field: the role, or a slice of the
        room state. */
    method HandleUpdate(m: Incoming)
      requires m.RoleUpdate? || IsDelta(m) || m.Unhandled?
      modifies this
      ensures View() == SimpleStep(old(View()), m)
      ensures outbox == old(outbox)
    {
      if m.RoleUpdate? {
        if m.role == "admin" {
          role := Admin;
        }
      } else if IsDelta(m) && roomState.Some? {
        roomState := Some(Delta(roomState.value, m));
      }
    }

    /** `uploadSignature`; the IV is the one `encrypt` draws. */
    method UploadSignature(partial: string, iv: seq<byte>)
      requires |iv| == Encryption.IvLength
      modifies this
      ensures View() == old(View())
      ensures var frame := UploadFrame(old(View()), crypto, lib, partial, iv);
        outbox == old(outbox) + (if frame.Some? && ws == Open then [frame.value] else [])
    {
      if !KeyPresent(encryptionKey) {
        return;
      }
      var payload := partial;
      var fingerprint := GetFingerprintFromPsbt(lib, partial);
      if roomState.Some? && roomState.value.psbt != "" {
        payload := MergePsbts(lib, roomState.value.psbt, partial);
      }
      var encrypted := Encryption.Encrypt(crypto, payload, encryptionKey.value, iv);
      if encrypted.Err? {
        return;
      }
      Send(UploadPartial(encrypted.value, fingerprint));
    }

    /** `checkAndApplyLocalLabels`, with the browser's address book as a map. */
    method CheckAndApplyLocalLabels(book: map<string, string>)
      modifies this
      ensures View() == old(View())
      ensures outbox == old(outbox) +
        (if role == Admin && roomState.Some? && ws == Open
         then LabelRequests(SignersOfState(lib, roomState), roomState.value.signerLabels, book) else [])
    {
      if role != Admin || roomState.None? {
        return;
      }
      var labels := roomState.value.signerLabels;
      var signers: seq<SignerStatus> := [];
      if roomState.value.psbt != "" {
        signers := ExtractSigners(lib, roomState.value.psbt);
      }
      assert signers == SignersOfState(lib, roomState);
      SendLabelRequests(signers, labels, book);
    }

    /** The loop of `checkAndApplyLocalLabels`: a label request for every signer without a
        label that the address book names. */
    method SendLabelRequests(signers: seq<SignerStatus>, labels: map<string, string>, book: map<string, string>)
      modifies this
      ensures View() == old(View())
      ensures outbox == old(outbox) + (if ws == Open then LabelRequests(signers, labels, book) else [])
    {
      var i := 0;
      while i < |signers|
        invariant 0 <= i <= |signers|
        invariant View() == old(View())
        invariant outbox == old(outbox) + (if ws == Open then LabelRequests(signers[..i], labels, book) else [])
      {
        var fp := signers[i].fingerprint;
        LabelRequestsStep(signers, labels, book, i);
        if fp !in labels || labels[fp] == "" {
          if fp in book && book[fp] != "" {
            Send(UpdateLabel(fp, book[fp]));
          }
        }
        i := i + 1;
      }
      assert signers[..i] == signers;
    }
  }
}
