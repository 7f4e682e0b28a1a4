/** The room page: what it derives from the room state (threshold, finalisability, whitelist,
    labels), its countdown, the manual key entry, the finalisation gate and the upload path. */
module RoomPage {
  import opened Common
  import opened Psbt
  import opened PsbtTools
  import Encryption
  import FileCheck
  import opened SocketClient

  /** `requiredSignatures`: the multisig threshold of the room's PSBT, 0 without one. */
  function RequiredSignatures(lib: PsbtLib, state: Option<RoomState>): (m: nat)
    ensures m <= 16
    ensures state.None? || state.value.psbt == "" ==> m == 0
  {
    if state.None? || state.value.psbt == "" then 0 else GetThreshold(lib, state.value.psbt)
  }

  /** `canFinalize`: a known threshold and at least that many stored uploads. */
  predicate CanFinalize(lib: PsbtLib, state: Option<RoomState>) {
    && state.Some?
    && var threshold := RequiredSignatures(lib, state);
       threshold > 0 && |state.value.signatures| >= threshold
  }

  /** Finalising needs a multisig script whose threshold the uploads reach; a PSBT that does not
      parse never finalises. */
  lemma CanFinalizeCases(lib: PsbtLib, state: Option<RoomState>)
    ensures CanFinalize(lib, state) ==> state.Some? && state.value.psbt != "" && ParseBase64(lib, state.value.psbt).Some?
    ensures CanFinalize(lib, state) ==> |state.value.signatures| >= 1
    ensures state.Some? && state.value.psbt != "" && ParseBase64(lib, state.value.psbt).None? ==> !CanFinalize(lib, state)
  {
  }

  /** A room whose PSBT spends an m-of-n multisig script needs exactly m signatures. */
  lemma RequiredSignaturesOfMultisig(lib: PsbtLib, state: Option<RoomState>, m: nat, keys: seq<seq<byte>>)
    requires state.Some? && state.value.psbt != ""
    requires 1 <= m <= |keys| <= 16
    requires forall i :: 0 <= i < |keys| ==> 1 <= |keys[i]| <= 75
    requires ParseBase64(lib, state.value.psbt).Some? && |ParseBase64(lib, state.value.psbt).value.inputs| > 0
    requires SpendScript(ParseBase64(lib, state.value.psbt).value.inputs[0]) == Some(MultisigScript(m, keys))
    ensures RequiredSignatures(lib, state) == m
  {
    ThresholdOfMultisig(lib, state.value.psbt, m, keys);
  }

  /** Two uploads on a 2-of-n script are enough, whatever they contain: the page counts uploads,
      not distinct signers. */
  lemma TwoUploadsReachTwoOfN(lib: PsbtLib, s: RoomState, upload: string)
    requires s.psbt != "" && GetThreshold(lib, s.psbt) == 2
    requires s.signatures == [upload, upload]
    ensures CanFinalize(lib, Some(s))
  {
  }

  /** `isWhitelisted`. */
  predicate IsWhitelisted(state: Option<RoomState>, address: string) {
    state.Some? && address in state.value.whitelist
  }

  /** `getSignerLabel`: the label and the fingerprint in parentheses, or the bare fingerprint
      when the label is missing or empty. */
  function SignerLabel(state: Option<RoomState>, fingerprint: string): (r: string)
    ensures var labels := if state.Some? then state.value.signerLabels else map[];
      if fingerprint in labels && labels[fingerprint] != "" then
        StartsWith(r, labels[fingerprint]) && EndsWith(r, " (" + fingerprint + ")")
          && |r| == |labels[fingerprint]| + |fingerprint| + 3
      else r == fingerprint
  {
    var labels := if state.Some? then state.value.signerLabels else map[];
    if fingerprint in labels && labels[fingerprint] != "" then
      var r := labels[fingerprint] + " (" + fingerprint + ")";
      assert r[..|labels[fingerprint]|] == labels[fingerprint];
      assert r[|r| - |" (" + fingerprint + ")"|..] == " (" + fingerprint + ")";
      r
    else fingerprint
  }

  // ---------------------------------------------------------------------------------------
  // Countdown
  // ---------------------------------------------------------------------------------------

  const HourMs: nat := 3_600_000
  const MinuteMs: nat := 60_000
  const SecondMs: nat := 1_000
  const Expired: string := "00 hrs 00 m 00 s"

  function Pad2(n: nat): string {
    PadStart(NatToDecimal(n), 2, '0')
  }

  function Hours(diff: nat): nat { diff / HourMs }
  function Minutes(diff: nat): nat { (diff % HourMs) / MinuteMs }
  function Seconds(diff: nat): nat { (diff % MinuteMs) / SecondMs }

  /** The text `startTimer` shows for `diff` milliseconds left. */
  function Countdown(diff: int): string {
    if diff <= 0 then Expired
    else Pad2(Hours(diff)) + " hrs " + Pad2(Minutes(diff)) + " m " + Pad2(Seconds(diff)) + " s"
  }

  /** What the timer shows: "Loading..." before the first tick, after that the countdown for
      the milliseconds left when the tick ran. */
  datatype TimerText = Loading | Left(ms: int)

  /** Past expiry the text is all zeros, as the expiry branch sets it. */
  function TimerString(t: TimerText): (s: string)
    ensures t.Loading? ==> s == "Loading..."
    ensures t.Left? && t.ms <= 0 ==> s == Expired
  {
    match t
    case Loading => "Loading..."
    case Left(ms) => Countdown(ms)
  }

  /** The hours, minutes and seconds shown add up to the time left, less under a second. */
  lemma CountdownDecomposes(diff: nat)
    ensures Minutes(diff) < 60 && Seconds(diff) < 60
    ensures Hours(diff) * HourMs + Minutes(diff) * MinuteMs + Seconds(diff) * SecondMs <= diff
    ensures diff < Hours(diff) * HourMs + Minutes(diff) * MinuteMs + Seconds(diff) * SecondMs + SecondMs
  {
    var h, r := diff / HourMs, diff % HourMs;
    assert diff == h * HourMs + r;
    var m, r2 := r / MinuteMs, r % MinuteMs;
    assert r == m * MinuteMs + r2;
    assert diff == (h * 60 + m) * MinuteMs + r2;
    MinuteRemainder(diff, h * 60 + m, r2);
    assert diff % MinuteMs == r2;
    var s := r2 / SecondMs;
    assert r2 == s * SecondMs + r2 % SecondMs;
  }

  /** Euclidean division by a minute is unique. */
  lemma MinuteRemainder(x: nat, q: nat, r: nat)
    requires r < MinuteMs && x == q * MinuteMs + r
    ensures x % MinuteMs == r
  {
  }

  /** Every field is at least two digits wide. */
  lemma CountdownFieldsPadded(n: nat)
    ensures |Pad2(n)| >= 2
    ensures n < 10 ==> Pad2(n) == ['0', ('0' as int + n) as char]
  {
  }

  // ---------------------------------------------------------------------------------------
  // Manual key entry
  // ---------------------------------------------------------------------------------------

  /** The key `submitKey` connects with: None for an empty entry; otherwise the trimmed entry, or
      the part of it after the first '#' (up to any next '#'). */
  function KeyFromInput(entry: string): (r: Option<string>)
    ensures r.None? <==> entry == ""
    ensures r.Some? && Contains(Trim(entry), '#') ==> !Contains(r.value, '#')
    ensures r.Some? && !Contains(Trim(entry), '#') ==> r.value == Trim(entry)
  {
    if entry == "" then None
    else
      var key := Trim(entry);
      if Contains(key, '#') then SecondField(key, '#') else Some(key)
  }

  /** With a `#` in the trimmed entry, the key is the field between its first `#` and the next
      `#` (or the end). */
  lemma KeyAfterFirstHash(entry: string)
    requires Contains(Trim(entry), '#')
    ensures var key := Trim(entry);
      && KeyFromInput(entry).Some? && IndexOf(key, '#').Some?
      && FieldAt(key, '#', IndexOf(key, '#').value + 1, KeyFromInput(entry).value)
  {
    var key := Trim(entry);
    if entry == "" {
      assert false;
    }
    assert KeyFromInput(entry) == SecondField(key, '#');
  }

  /** Pasting a whole invite link yields the key its fragment carries. */
  lemma InviteLinkYieldsKey(link: string, key: string)
    requires !Contains(link, '#') && !Contains(key, '#')
    requires Trim(link + "#" + key) == link + "#" + key
    ensures KeyFromInput(link + "#" + key) == Some(key)
  {
    var s := link + "#" + key;
    assert s[|link|] == '#';
    assert Contains(s, '#');
    var i := IndexOf(s, '#').value;
    assert forall j :: 0 <= j < |link| ==> s[j] == link[j];
    assert i == |link|;
    assert s[i + 1..] == key;
  }

  // ---------------------------------------------------------------------------------------
  // Finalisation gate
  // ---------------------------------------------------------------------------------------

  datatype FinalizeStep = Skip | AskConfirm(unverified: nat) | Proceed

  /** The output rows of `txDetails`: none without a PSBT or when it does not parse. */
  function OutputRowsOf(lib: PsbtLib, state: Option<RoomState>): seq<OutputRow> {
    if state.None? || state.value.psbt == "" then []
    else
      match ParseBase64(lib, state.value.psbt)
      case None => []
      case Some(tx) => DetailsOf(tx).outputs
  }

  /** The number of rows whose address is not on the whitelist. */
  function UnverifiedCount(rows: seq<OutputRow>, whitelist: seq<string>): (n: nat)
    ensures n <= |rows|
  {
    if rows == [] then 0
    else UnverifiedCount(rows[..|rows| - 1], whitelist) + (if rows[|rows| - 1].address in whitelist then 0 else 1)
  }

  lemma {:induction false} UnverifiedCountZero(rows: seq<OutputRow>, whitelist: seq<string>)
    ensures UnverifiedCount(rows, whitelist) == 0 <==> forall i :: 0 <= i < |rows| ==> rows[i].address in whitelist
  {
    if rows != [] {
      var n := |rows| - 1;
      UnverifiedCountZero(rows[..n], whitelist);
      assert forall i :: 0 <= i < n ==> rows[..n][i] == rows[i];
    }
  }

  /** `finalize`'s decision: nothing once expired; a confirmation for an enterprise room with a
      whitelist that some output address is missing from; otherwise straight on. */
  function FinalizeDecision(lib: PsbtLib, isExpired: bool, state: Option<RoomState>): FinalizeStep {
    if isExpired then Skip
    else if state.Some? && state.value.tier == "enterprise" && |state.value.whitelist| > 0 then
      var n := UnverifiedCount(OutputRowsOf(lib, state), state.value.whitelist);
      if n > 0 then AskConfirm(n) else Proceed
    else Proceed
  }

  /** An enterprise room with a whitelist finalises without asking only when every output pays a
      whitelisted address; other rooms never ask. */
  lemma FinalizeGate(lib: PsbtLib, isExpired: bool, state: Option<RoomState>)
    ensures isExpired ==> FinalizeDecision(lib, isExpired, state) == Skip
    ensures !isExpired && state.Some? && state.value.tier == "enterprise" && |state.value.whitelist| > 0 ==>
      (FinalizeDecision(lib, isExpired, state) == Proceed <==>
        forall i :: 0 <= i < |OutputRowsOf(lib, state)| ==> OutputRowsOf(lib, state)[i].address in state.value.whitelist)
    ensures !isExpired && (state.None? || state.value.tier != "enterprise" || state.value.whitelist == []) ==>
      FinalizeDecision(lib, isExpired, state) == Proceed
  {
    if state.Some? {
      UnverifiedCountZero(OutputRowsOf(lib, state), state.value.whitelist);
    }
  }

  /** `getFinalTxHex`: only the coordinator, only with a PSBT; `extracted` is what the library's
      finalise-and-extract yields (None when it throws). */
  function FinalTxHex(v: ClientView, extracted: Option<string>): Option<string> {
    if v.role != Admin || v.roomState.None? || v.roomState.value.psbt == "" then None else extracted
  }

  /** What finalising sends: the `Tx Finalized` log action, when there is a hex and the socket is
      open. */
  function FinalizedLog(hex: Option<string>, ws: Socket): seq<Outgoing> {
    if hex.Some? && ws == Open then [LogAction("Tx Finalized", "Signatures merged successfully")] else []
  }

  class RoomView {
    const socket: SocketService
    const roomId: string

    var timeRemaining: TimerText
    /** The expiry the running interval counts toward, as `startTimer` received it. */
    var expiryTime: int
    var isExpired: bool
    var isLowTime: bool
    var timerRunning: bool
    var manualKey: string
    var finalHex: Option<string>
    /** The security warning on screen, with the count of unverified addresses. */
    var pendingConfirm: Option<nat>

    constructor(socket: SocketService, roomId: string)
      ensures this.socket == socket && this.roomId == roomId
      ensures timeRemaining == Loading && !isExpired && !isLowTime && !timerRunning
      ensures manualKey == "" && finalHex == None && pendingConfirm == None
    {
      this.socket := socket;
      this.roomId := roomId;
      timeRemaining := Loading;
      expiryTime := 0;
      isExpired := false;
      isLowTime := false;
      timerRunning := false;
      manualKey := "";
      finalHex := None;
      pendingConfirm := None;
    }

    /** `startTimer(expiryTime)`: clear any running interval and start a one-second interval that
        counts toward `expiry`. The page calls it with the room's `expiresAt` whenever the room
        state changes. */
    method StartTimer(expiry: int)
      modifies this
      ensures timerRunning && expiryTime == expiry
      ensures timeRemaining == old(timeRemaining) && isExpired == old(isExpired) && isLowTime == old(isLowTime)
      ensures manualKey == old(manualKey) && finalHex == old(finalHex) && pendingConfirm == old(pendingConfirm)
    {
      timerRunning := true;
      expiryTime := expiry;
    }

    /** One tick of the interval at time `now`, counting toward the expiry `startTimer` captured:
        at or past it the page shows zero (the text of a non-positive time left), marks itself
        expired, stops the interval and disconnects with the default `clearState`, which also
        resets the service's room state. */
    method Tick(now: int)
      modifies this, socket
      ensures !old(timerRunning) ==> unchanged(this) && unchanged(socket)
      ensures expiryTime == old(expiryTime)
      ensures old(timerRunning) && expiryTime - now <= 0 ==>
        && timeRemaining == Left(expiryTime - now) && isExpired && !timerRunning && isLowTime == old(isLowTime)
        && socket.View() == ResetView(DisconnectView(old(socket.View()))) && socket.outbox == old(socket.outbox)
      ensures old(timerRunning) && expiryTime - now > 0 ==>
        && timeRemaining == Left(expiryTime - now) && isLowTime == (expiryTime - now < 120000)
        && isExpired == old(isExpired) && timerRunning && unchanged(socket)
      ensures manualKey == old(manualKey) && finalHex == old(finalHex) && pendingConfirm == old(pendingConfirm)
    {
      if !timerRunning {
        return;
      }
      var diff := expiryTime - now;
      if diff <= 0 {
        timeRemaining := Left(diff);
        isExpired := true;
        timerRunning := false;
        socket.Disconnect(true);
      } else {
        timeRemaining := Left(diff);
        isLowTime := diff < 120000;
      }
    }

    /** `submitKey`: reconnect to the room with the entered key. */
    method SubmitKey(now: int)
      modifies this, socket
      ensures old(manualKey) == "" ==> unchanged(this) && unchanged(socket)
      ensures old(manualKey) != "" ==>
        && manualKey == ""
        && socket.View() == ResetView(DisconnectView(old(socket.View()))).(
             encryptionKey := KeyFromInput(old(manualKey)), roomState := Some(InitialState(roomId, now)),
             status := Connecting, ws := Opening)
        && socket.outbox == old(socket.outbox)
      ensures timeRemaining == old(timeRemaining) && isExpired == old(isExpired) && isLowTime == old(isLowTime)
      ensures timerRunning == old(timerRunning) && expiryTime == old(expiryTime)
      ensures finalHex == old(finalHex) && pendingConfirm == old(pendingConfirm)
    {
      if manualKey == "" {
        return;
      }
      var key := KeyFromInput(manualKey);
      socket.Disconnect(false);
      socket.Connect(roomId, key, now);
      manualKey := "";
    }

    /** `doFinalize`: keep the final hex and log it, when there is one. */
    method DoFinalize(extracted: Option<string>)
      modifies this, socket
      ensures var hex := FinalTxHex(old(socket.View()), extracted);
        && finalHex == (if hex.Some? then hex else old(finalHex))
        && socket.View() == old(socket.View())
        && socket.outbox == old(socket.outbox) + FinalizedLog(hex, old(socket.ws))
      ensures timeRemaining == old(timeRemaining) && isExpired == old(isExpired) && isLowTime == old(isLowTime)
      ensures timerRunning == old(timerRunning) && expiryTime == old(expiryTime)
      ensures manualKey == old(manualKey) && pendingConfirm == old(pendingConfirm)
    {
      var hex := FinalTxHex(socket.View(), extracted);
      if hex.Some? {
        finalHex := hex;
        socket.Send(LogAction("Tx Finalized", "Signatures merged successfully"));
      }
    }

    /** `finalize`. */
    method Finalize(extracted: Option<string>)
      modifies this, socket
      ensures var step := FinalizeDecision(socket.lib, old(isExpired), old(socket.roomState));
        && (step == Skip ==> unchanged(this) && unchanged(socket))
        && (step.AskConfirm? ==> pendingConfirm == Some(step.unverified) && finalHex == old(finalHex) && unchanged(socket))
        && (step == Proceed ==>
             var hex := FinalTxHex(old(socket.View()), extracted);
             && finalHex == (if hex.Some? then hex else old(finalHex)) && pendingConfirm == old(pendingConfirm)
             && socket.View() == old(socket.View())
             && socket.outbox == old(socket.outbox) + FinalizedLog(hex, old(socket.ws)))
      ensures timeRemaining == old(timeRemaining) && isExpired == old(isExpired) && isLowTime == old(isLowTime)
      ensures timerRunning == old(timerRunning) && expiryTime == old(expiryTime) && manualKey == old(manualKey)
    {
      var step := FinalizeDecision(socket.lib, isExpired, socket.roomState);
      if step == Skip {
        return;
      }
      if step.AskConfirm? {
        pendingConfirm := Some(step.unverified);
        return;
      }
      DoFinalize(extracted);
    }

    /** The confirmation of the security warning runs the postponed finalisation. */
    method ConfirmFinalize(extracted: Option<string>)
      modifies this, socket
      ensures old(pendingConfirm).None? ==> unchanged(this) && unchanged(socket)
      ensures old(pendingConfirm).Some? ==>
        var hex := FinalTxHex(old(socket.View()), extracted);
        && pendingConfirm == None
        && finalHex == (if hex.Some? then hex else old(finalHex))
        && socket.View() == old(socket.View())
        && socket.outbox == old(socket.outbox) + FinalizedLog(hex, old(socket.ws))
      ensures timeRemaining == old(timeRemaining) && isExpired == old(isExpired) && isLowTime == old(isLowTime)
      ensures timerRunning == old(timerRunning) && expiryTime == old(expiryTime) && manualKey == old(manualKey)
    {
      if pendingConfirm.None? {
        return;
      }
      pendingConfirm := None;
      DoFinalize(extracted);
    }

    /** `onFileSelected`: an accepted file is uploaded as the user's partial; `iv` is the IV the
      upload's encryption draws. */
    method OnFileSelected(name: string, bytes: seq<byte>, iv: seq<byte>)
      requires |iv| == Encryption.IvLength
      modifies socket
      ensures var outcome := FileCheck.CheckFile(name, bytes, socket.crypto.utf8Decode);
        && socket.View() == old(socket.View())
        && (!outcome.Accepted? ==> socket.outbox == old(socket.outbox))
        && (outcome.Accepted? ==>
             var frame := UploadFrame(old(socket.View()), socket.crypto, socket.lib, outcome.content, iv);
             socket.outbox == old(socket.outbox) + (if frame.Some? && socket.ws == Open then [frame.value] else []))
    {
      var outcome := FileCheck.CheckFile(name, bytes, socket.crypto.utf8Decode);
      if outcome.Accepted? {
        socket.UploadSignature(outcome.content, iv);
      }
    }
  }
}
