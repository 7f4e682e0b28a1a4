/** The worker's HTTP front: the request middleware, room creation, the Lightning payment
    gates for extending and unlocking a room, and the license purchase, webhook, claim and
    rotation routes. A payment lookup at the LNbits backend is a parameter: `None` when the
    lookup itself fails. */
module Routes {
  import opened Common
  import Licenses
  import SalesCounter
  import RoomActor
  import RateLimit

  /** Prices in millisatoshis. */
  const UnlockPriceMsats: int := 21000 * 1000
  const ExtendPriceMsats: int := 5000 * 1000
  const AnnualLicenseMsats: int := 300000 * 1000
  const GenesisLicenseMsats: int := 2100000 * 1000

  /** The fields of an LNbits payment the routes read: `paid`, `details.amount`, `details.memo`. */
  datatype Payment = Payment(paid: bool, amount: Option<int>, memo: Option<string>)

  /** `details?.amount || 0`. */
  function PaidMsats(p: Payment): int {
    p.amount.GetOr(0)
  }

  // ---------------------------------------------------------------------------------------
  // Middleware
  // ---------------------------------------------------------------------------------------

  datatype Gate = Preflight | RateLimited | Proceed

  /** Preflight requests are answered before any counting; requests without a client address
      header (or whose address reads "unknown") are never limited. */
  function GateOf(limits: RateLimit.Limits, httpMethod: string, ip: Option<string>, now: int): (r: (RateLimit.Limits, Gate))
    ensures httpMethod == "OPTIONS" ==> r == (limits, Preflight)
    ensures httpMethod != "OPTIONS" && OrDefault(ip, "unknown") == "unknown" ==> r == (limits, Proceed)
    ensures httpMethod != "OPTIONS" && OrDefault(ip, "unknown") != "unknown" ==>
      r.0 == RateLimit.Check(limits, ip.value, now).0 &&
      (r.1 == RateLimited <==> !RateLimit.Check(limits, ip.value, now).1)
  {
    if httpMethod == "OPTIONS" then (limits, Preflight)
    else
      var address := OrDefault(ip, "unknown");
      if address == "unknown" then (limits, Proceed)
      else
        var (limits', ok) := RateLimit.Check(limits, address, now);
        (limits', if ok then Proceed else RateLimited)
  }

  method Middleware(limiter: RateLimit.RateLimiter, httpMethod: string, ip: Option<string>, now: int) returns (g: Gate)
    modifies limiter
    ensures (limiter.limits, g) == GateOf(old(limiter.limits), httpMethod, ip, now)
  {
    if httpMethod == "OPTIONS" {
      return Preflight;
    }
    var address := OrDefault(ip, "unknown");
    if address != "unknown" {
      var ok := limiter.CheckRateLimit(address, now);
      if !ok {
        return RateLimited;
      }
    }
    g := Proceed;
  }

  // ---------------------------------------------------------------------------------------
  // Rooms
  // ---------------------------------------------------------------------------------------

  datatype CreateResponse = PayloadTooLarge | Created(roomId: string, adminToken: string) | CreateFailed

  function Status(r: CreateResponse): nat {
    match r
    case PayloadTooLarge => 413
    case Created(_, _) => 200
    case CreateFailed => 500
  }

  /** An encrypted PSBT longer than 500 KiB is refused before any room exists. */
  predicate TooLarge(encryptedPsbt: Option<string>) {
    encryptedPsbt.Some? && |encryptedPsbt.value| > RoomActor.MaxPayload
  }

  /** `POST /api/room`: `roomId` and `adminToken` stand for the two random UUIDs, `room` for the
      object named by the room id. */
  method CreateRoom(room: RoomActor.SigningRoom, encryptedPsbt: Option<string>, tier: Option<string>,
                    licenseKey: Option<string>, network: Option<string>, roomId: string, adminToken: string,
                    kv: Licenses.Kv, now: nat) returns (r: CreateResponse)
    modifies room
    ensures TooLarge(encryptedPsbt) ==> r == PayloadTooLarge && room.View() == old(room.View())
    ensures !TooLarge(encryptedPsbt) ==>
      var body := RoomActor.InitBody(encryptedPsbt, Some(adminToken), tier, Some(roomId), licenseKey, network);
      var (a, ok) := RoomActor.InitStep(old(room.View()), body, kv, now);
      room.View() == a && r == (if ok then Created(roomId, adminToken) else CreateFailed)
    ensures room.outbox == old(room.outbox)
  {
    if TooLarge(encryptedPsbt) {
      return PayloadTooLarge;
    }
    var ok := room.Init(RoomActor.InitBody(encryptedPsbt, Some(adminToken), tier, Some(roomId), licenseKey, network), kv, now);
    r := if ok then Created(roomId, adminToken) else CreateFailed;
  }

  /** The answer of `/extend` and `/unlock`; `LookupFailed` is the unhandled exception (a 500)
      when the LNbits lookup or its JSON body throws. */
  datatype PayResponse = Success | InsufficientAmount | Unpaid | LookupFailed

  /** The gate of the `/extend` and `/unlock` routes: an unpaid invoice, a paid amount below the
      price, or success. */
  function PaymentGate(p: Payment, price: int): (r: PayResponse)
    ensures r == Success <==> p.paid && PaidMsats(p) >= price
    ensures r == Unpaid <==> !p.paid
    ensures r != LookupFailed
  {
    if !p.paid then Unpaid else if PaidMsats(p) < price then InsufficientAmount else Success
  }

  /** A paid invoice without an amount counts as zero and never passes a gate. */
  lemma MissingAmountRefused(p: Payment, price: int)
    requires p.paid && p.amount.None? && price > 0
    ensures PaymentGate(p, price) == InsufficientAmount
  {
  }

  /** `POST /api/room/:id/extend`: the room is extended only after a payment of at least 5,000
      sats. */
  method ExtendRoute(room: RoomActor.SigningRoom, p: Option<Payment>, now: int) returns (r: PayResponse)
    modifies room
    ensures p.None? ==> r == LookupFailed
    ensures p.Some? ==> r == PaymentGate(p.value, ExtendPriceMsats)
    ensures r == Success ==> var (a, out, _) := RoomActor.ExtendStep(old(room.View()), now);
      room.View() == a && room.outbox == old(room.outbox) + out
    ensures r != Success ==> room.View() == old(room.View()) && room.outbox == old(room.outbox)
  {
    if p.None? {
      return LookupFailed;
    }
    r := PaymentGate(p.value, ExtendPriceMsats);
    if r == Success {
      var _ := room.Extend(now);
    }
  }

  /** `POST /api/room/:id/unlock`: the room is unlocked only after a payment of at least 21,000
      sats. */
  method UnlockRoute(room: RoomActor.SigningRoom, p: Option<Payment>, now: int) returns (r: PayResponse)
    modifies room
    ensures p.None? ==> r == LookupFailed
    ensures p.Some? ==> r == PaymentGate(p.value, UnlockPriceMsats)
    ensures r == Success ==> var (a, out, _) := RoomActor.UnlockStep(old(room.View()), now);
      room.View() == a && room.outbox == old(room.outbox) + out
    ensures r != Success ==> room.View() == old(room.View()) && room.outbox == old(room.outbox)
  {
    if p.None? {
      return LookupFailed;
    }
    r := PaymentGate(p.value, UnlockPriceMsats);
    if r == Success {
      var _ := room.Unlock(now);
    }
  }

  /** An unlock payment always covers an extension, not the other way round. */
  lemma UnlockPaymentCoversExtend(p: Payment)
    ensures PaymentGate(p, UnlockPriceMsats) == Success ==> PaymentGate(p, ExtendPriceMsats) == Success
    ensures PaymentGate(Payment(true, Some(ExtendPriceMsats), None), UnlockPriceMsats) == InsufficientAmount
  {
  }

  /** `POST /api/webhook/lnbits?roomId=…`: any request naming a room extends it; no payment is
      looked up. */
  method LnbitsWebhook(room: RoomActor.SigningRoom, roomId: Option<string>, now: int)
    modifies room
    ensures roomId.Some? && roomId.value != "" ==> var (a, out, _) := RoomActor.ExtendStep(old(room.View()), now);
      room.View() == a && room.outbox == old(room.outbox) + out
    ensures roomId.None? || roomId.value == "" ==> room.View() == old(room.View()) && room.outbox == old(room.outbox)
  {
    if roomId.Some? && roomId.value != "" {
      var _ := room.Extend(now);
    }
  }

  // ---------------------------------------------------------------------------------------
  // Licenses
  // ---------------------------------------------------------------------------------------

  /** The price of a license type: genesis, or annual for any other type. */
  function LicensePriceMsats(t: Option<string>): (m: int)
    ensures t == Some("genesis") ==> m == 2100000000
    ensures t != Some("genesis") ==> m == 300000000
  {
    if t == Some("genesis") then GenesisLicenseMsats else AnnualLicenseMsats
  }

  datatype BuyResponse = Invoice(amountSats: int, memo: string) | SoldOut | NoPaymentBackend

  /** The memo of the invoice for a license type; the genesis memo is written around its
      `GENESIS` marker. */
  function InvoiceMemo(t: Option<string>): string {
    if t == Some("genesis") then "SigningRoom " + "GENESIS" + " License (Lifetime)" else "SigningRoom Annual License"
  }

  /** `POST /api/license/buy`: a genesis purchase first asks the counter to reserve (which
      writes nothing); without a payment backend there is no invoice. */
  method BuyLicense(counter: SalesCounter.Counter, t: Option<string>, hasBackend: bool) returns (r: BuyResponse)
    modifies counter
    ensures counter.sold == old(counter.sold)
    ensures t == Some("genesis") && counter.sold >= SalesCounter.Supply ==> r == SoldOut
    ensures r.Invoice? ==> hasBackend && r.amountSats * 1000 == LicensePriceMsats(t)
    ensures !hasBackend && !(t == Some("genesis") && counter.sold >= SalesCounter.Supply) ==> r == NoPaymentBackend
    ensures hasBackend && !(t == Some("genesis") && counter.sold >= SalesCounter.Supply) ==>
      r == Invoice(LicensePriceMsats(t) / 1000, InvoiceMemo(t))
  {
    var amount := AnnualLicenseMsats / 1000;
    var memo := InvoiceMemo(None);
    if t == Some("genesis") {
      amount := GenesisLicenseMsats / 1000;
      memo := InvoiceMemo(t);
      var res := counter.Fetch("/reserve");
      if SalesCounter.Status(res) != 200 {
        return SoldOut;
      }
    }
    if !hasBackend {
      return NoPaymentBackend;
    }
    r := Invoice(amount, memo);
  }

  /** The license webhook's answer; `MintedOk` is the plain `OK` text, which carries no key. */
  datatype WebhookResponse = ConfigError | NotPaid | Insufficient | MintedOk | VerificationFailed

  /** What the license webhook's checks decide: mint, or answer with a refusal. */
  datatype MintDecision = Mint | Refuse(response: WebhookResponse)

  /** Whether the license webhook mints: a backend, a successful lookup, a paid invoice and the
      price of the named type. The genesis stock is not part of the decision. */
  function WebhookDecision(t: Option<string>, payment: Option<Payment>, hasBackend: bool): (r: MintDecision)
    ensures r == Mint <==>
      hasBackend && payment.Some? && payment.value.paid && PaidMsats(payment.value) >= LicensePriceMsats(t)
    ensures r.Refuse? ==> r.response != MintedOk
    ensures r == Refuse(ConfigError) <==> !hasBackend
    ensures r == Refuse(VerificationFailed) <==> hasBackend && payment.None?
  {
    if !hasBackend then Refuse(ConfigError)
    else if payment.None? then Refuse(VerificationFailed)
    else if !payment.value.paid then Refuse(NotPaid)
    else if PaidMsats(payment.value) < LicensePriceMsats(t) then Refuse(Insufficient)
    else Mint
  }

  /** The pending-claim entry a payment hash leads to. */
  function PendingRef(hash: string): string {
    "pending:" + hash
  }

  /** `POST /api/webhook/license?type=…`: after the checks a genesis sale is confirmed at the
      counter, whose answer is not read, and a license of the named type is minted and parked
      under `pending:<hash>`. `id` and `suffix` stand for the random UUID and key fragments. */
  method LicenseWebhook(counter: SalesCounter.Counter, store: Licenses.LicenseStore, t: Option<string>,
                        hash: string, payment: Option<Payment>, hasBackend: bool,
                        id: string, suffix: string, now: nat) returns (r: WebhookResponse)
    modifies counter, store
    ensures WebhookDecision(t, payment, hasBackend).Refuse? ==>
      r == WebhookDecision(t, payment, hasBackend).response && counter.sold == old(counter.sold) && store.kv == old(store.kv)
    ensures WebhookDecision(t, payment, hasBackend) == Mint ==>
      var kind := Render(t);
      && r == MintedOk
      && counter.sold == (if t == Some("genesis") then SalesCounter.ConfirmStep(old(counter.sold)).0 else old(counter.sold))
      && store.kv == Licenses.CreateKv(old(store.kv), kind, id, suffix, None, now)[PendingRef(hash) := Licenses.Text(Licenses.ApiKey(kind, suffix))]
  {
    var decision := WebhookDecision(t, payment, hasBackend);
    if decision.Refuse? {
      return decision.response;
    }
    if t == Some("genesis") {
      var _ := counter.Fetch("/confirm");
    }
    var apiKey, _ := store.Create(Render(t), id, suffix, None, now);
    store.Put(PendingRef(hash), Licenses.Text(apiKey));
    r := MintedOk;
  }

  /** As written, a sold-out counter does not stop a paid genesis webhook: a lifetime license is
      still minted while the count stays at 21. */
  lemma GenesisMintedWhenSoldOut(hash: string, p: Payment)
    requires p.paid && PaidMsats(p) >= GenesisLicenseMsats
    ensures WebhookDecision(Some("genesis"), Some(p), true) == Mint
    ensures SalesCounter.ConfirmStep(SalesCounter.Supply) == (SalesCounter.Supply, SalesCounter.SoldOut)
  {
  }

  datatype ClaimResponse = Ready(apiKey: string) | NotReady | ClaimInsufficient

  /** The key parked under `pending:<hash>`, when there is a non-empty one. */
  function PendingKey(kv: Licenses.Kv, hash: string): Option<string> {
    var k := PendingRef(hash);
    if k in kv && kv[k].Text? && kv[k].text != "" then Some(kv[k].text) else None
  }

  /** `text` occurs in `s`. */
  predicate Includes(s: string, text: string) {
    exists i :: 0 <= i <= |s| && StartsWith(s[i..], text)
  }

  /** The license type a claim infers from the invoice memo. */
  function ClaimType(p: Payment): (t: string)
    ensures t == "genesis" <==> Includes(p.memo.GetOr(""), "GENESIS")
  {
    if Includes(p.memo.GetOr(""), "GENESIS") then "genesis" else "annual"
  }

  /** `GET /api/license/claim/:hash`: a parked key is handed out as it is; otherwise a paid
      invoice of sufficient amount mints a license (confirming a genesis sale first, without
      reading the answer) and parks it. */
  method ClaimLicense(counter: SalesCounter.Counter, store: Licenses.LicenseStore, hash: string,
                      payment: Option<Payment>, hasBackend: bool, id: string, suffix: string, now: nat)
      returns (r: ClaimResponse)
    modifies counter, store
    ensures PendingKey(old(store.kv), hash).Some? ==>
      r == Ready(PendingKey(old(store.kv), hash).value) && store.kv == old(store.kv) && counter.sold == old(counter.sold)
    ensures PendingKey(old(store.kv), hash).None? && !(hasBackend && payment.Some? && payment.value.paid) ==>
      r == NotReady && store.kv == old(store.kv) && counter.sold == old(counter.sold)
    ensures PendingKey(old(store.kv), hash).None? && hasBackend && payment.Some? && payment.value.paid ==>
      var t := ClaimType(payment.value);
      if PaidMsats(payment.value) < LicensePriceMsats(Some(t)) then
        r == ClaimInsufficient && store.kv == old(store.kv) && counter.sold == old(counter.sold)
      else
        && r == Ready(Licenses.ApiKey(t, suffix))
        && counter.sold == (if t == "genesis" then SalesCounter.ConfirmStep(old(counter.sold)).0 else old(counter.sold))
        && store.kv == Licenses.CreateKv(old(store.kv), t, id, suffix, None, now)[PendingRef(hash) := Licenses.Text(r.apiKey)]
  {
    var parked := PendingKey(store.kv, hash);
    if parked.Some? {
      return Ready(parked.value);
    }
    if !hasBackend || payment.None? || !payment.value.paid {
      return NotReady;
    }
    var t := ClaimType(payment.value);
    if PaidMsats(payment.value) < LicensePriceMsats(Some(t)) {
      return ClaimInsufficient;
    }
    if t == "genesis" {
      var _ := counter.Fetch("/confirm");
    }
    var apiKey, _ := store.Create(t, id, suffix, None, now);
    store.Put(PendingRef(hash), Licenses.Text(apiKey));
    r := Ready(apiKey);
  }

  /** A memo naming GENESIS prices the claim as a lifetime license. */
  lemma GenesisMemoPricing(p: Payment, before: string, after: string)
    requires p.memo == Some(before + "GENESIS" + after)
    ensures ClaimType(p) == "genesis" && LicensePriceMsats(Some(ClaimType(p))) == GenesisLicenseMsats
  {
    var s := before + "GENESIS" + after;
    assert s[|before|..][..7] == "GENESIS";
    assert StartsWith(s[|before|..], "GENESIS");
  }

  /** Text without the first character of `text` does not include `text`. */
  lemma MissingFirstCharExcludes(s: string, text: string)
    requires |text| > 0 && forall j :: 0 <= j < |s| ==> s[j] != text[0]
    ensures !Includes(s, text)
  {
    forall i | 0 <= i <= |s| ensures !StartsWith(s[i..], text) {
      if i < |s| {
        assert s[i..][0] == s[i];
      }
    }
  }

  /** The annual memo does not contain "GENESIS": it has no capital `G`. */
  lemma AnnualMemoNotGenesis()
    ensures !Includes(InvoiceMemo(None), "GENESIS")
  {
    var s := InvoiceMemo(None);
    assert forall j :: 0 <= j < |s| ==> s[j] != 'G';
    MissingFirstCharExcludes(s, "GENESIS");
  }

  /** A claim reads back the type a purchase was invoiced for: the genesis memo names genesis
      and the annual memo does not. */
  lemma InvoiceMemoNamesType(t: Option<string>, p: Payment)
    requires p.memo == Some(InvoiceMemo(t))
    ensures ClaimType(p) == "genesis" <==> t == Some("genesis")
    ensures LicensePriceMsats(Some(ClaimType(p))) == LicensePriceMsats(t)
  {
    if t == Some("genesis") {
      GenesisMemoPricing(p, "SigningRoom ", " License (Lifetime)");
    } else {
      AnnualMemoNotGenesis();
    }
  }

  datatype RotateResponse = MissingKey | Rotated(newKey: string) | RotateRefused(error: Licenses.RotateError)

  /** `POST /api/license/rotate`: 400 without a key, 403 with whatever `rotate` threw. */
  method RotateRoute(store: Licenses.LicenseStore, oldKey: Option<string>, suffix: string, now: nat) returns (r: RotateResponse)
    modifies store
    ensures oldKey.None? || oldKey.value == "" ==> r == MissingKey && store.kv == old(store.kv)
    ensures oldKey.Some? && oldKey.value != "" ==>
      var spec := Licenses.RotateKv(old(store.kv), oldKey.value, suffix, now);
      && (spec.Err? ==> r == RotateRefused(spec.error) && store.kv == old(store.kv))
      && (spec.Ok? ==> r == Rotated(spec.value.1) && store.kv == spec.value.0)
  {
    if oldKey.None? || oldKey.value == "" {
      return MissingKey;
    }
    var result := store.Rotate(oldKey.value, suffix, now);
    r := match result case Ok(k) => Rotated(k) case Err(e) => RotateRefused(e);
  }

  function RotateStatus(r: RotateResponse): nat {
    match r
    case MissingKey => 400
    case Rotated(_) => 200
    case RotateRefused(_) => 403
  }
}
