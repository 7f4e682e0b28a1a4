/** The create page: the analysis of the chosen PSBT, the warnings it drives, the file checks and
    the request that launches a room. */
module CreatePage {
  import opened Common
  import opened Psbt
  import opened PsbtTools
  import Encryption
  import FileCheck

  datatype Tier = Free | OneOff
  datatype Network = Bitcoin | Testnet | Signet | Unknown

  /** The integer part of `PsbtAnalysis`; `amountBtc` is kept as the satoshi total it is the
      hundred-millionth of. */
  datatype Analysis = Analysis(signerCount: nat, totalOutput: nat, networkFeeSat: int, outputCount: nat, detectedNetwork: Network)

  /** Outputs below this many satoshis are refused as dust. */
  const DustLimit: nat := 546

  /** BIP 32 hardened indices 0' and 1', the BIP 44 coin types of mainnet and testnet. */
  const MainnetCoin: nat := 0x8000_0000
  const TestnetCoin: nat := 0x8000_0001

  // ---------------------------------------------------------------------------------------
  // The analysis as functions of the transaction
  // ---------------------------------------------------------------------------------------

  /** The unpadded hex fingerprints of a derivation list, zero fingerprints skipped. */
  function DerivationFingerprints(ds: seq<Derivation>): set<string> {
    if ds == [] then {}
    else
      var d := ds[|ds| - 1];
      DerivationFingerprints(ds[..|ds| - 1]) + (if d.fingerprint != 0 then {NatToHex(d.fingerprint)} else {})
  }

  function InputFingerprints(inputs: seq<Input>): set<string> {
    if inputs == [] then {}
    else InputFingerprints(inputs[..|inputs| - 1]) + DerivationFingerprints(inputs[|inputs| - 1].derivations)
  }

  /** -1 for a coin type of 0', +1 for 1', else 0; the coin type is the second path element. */
  function CoinScore(d: Derivation): int {
    if |d.path| > 1 && d.path[1] == MainnetCoin then -1
    else if |d.path| > 1 && d.path[1] == TestnetCoin then 1
    else 0
  }

  function DerivationScore(ds: seq<Derivation>): int {
    if ds == [] then 0 else DerivationScore(ds[..|ds| - 1]) + CoinScore(ds[|ds| - 1])
  }

  function NetworkScore(inputs: seq<Input>): int {
    if inputs == [] then 0 else NetworkScore(inputs[..|inputs| - 1]) + DerivationScore(inputs[|inputs| - 1].derivations)
  }

  function NetworkOf(score: int): (n: Network)
    ensures n == Testnet <==> score > 0
    ensures n == Bitcoin <==> score < 0
    ensures n == Unknown <==> score == 0
  {
    if score > 0 then Testnet else if score < 0 then Bitcoin else Unknown
  }

  predicate HasDust(outputs: seq<Output>) {
    exists i :: 0 <= i < |outputs| && outputs[i].amount < DustLimit
  }

  /** The hex test of `isHex`: only hex digits, at least one, and the lower-cased text starts
      with the magic's hex digits. */
  predicate IsPsbtHex(s: string) {
    IsHexText(s) && StartsWith(Lower(s), MagicHex)
  }

  /** The bytes `analyzeRawHex` parses: hex when `isHex`, else base64 (None when the decoder throws). */
  function AnalysisBytes(lib: PsbtLib, data: string): Option<seq<byte>> {
    var clean := RemoveSpaces(data);
    if IsPsbtHex(clean) then HexDecode(clean) else lib.base64Decode(clean)
  }

  /** The analysis of a parsed transaction with no dust output. */
  function Summary(tx: Tx): Analysis {
    var totalInput := TotalInput(tx.inputs);
    var totalOutput := TotalOutput(tx.outputs);
    var fingerprints := InputFingerprints(tx.inputs);
    Analysis(
      if |fingerprints| == 0 then 1 else |fingerprints|,
      totalOutput,
      if totalInput > 0 then totalInput - totalOutput else 0,
      |tx.outputs|,
      NetworkOf(NetworkScore(tx.inputs)))
  }

  /** What `analyzeRawHex(data)` leaves in `psbtAnalysis`. */
  function AnalysisOf(lib: PsbtLib, data: string): Option<Analysis> {
    if |data| < 10 then None
    else
      match AnalysisBytes(lib, data)
      case None => None
      case Some(bytes) =>
        match lib.fromPsbt(bytes)
        case None => None
        case Some(tx) => if HasDust(tx.outputs) then None else Some(Summary(tx))
  }

  // ---------------------------------------------------------------------------------------
  // Properties of the analysis
  // ---------------------------------------------------------------------------------------

  /** A single dust output voids the whole analysis. */
  lemma DustVoidsAnalysis(lib: PsbtLib, data: string, tx: Tx, i: nat)
    requires AnalysisBytes(lib, data).Some? && lib.fromPsbt(AnalysisBytes(lib, data).value) == Some(tx)
    requires i < |tx.outputs| && tx.outputs[i].amount < DustLimit
    ensures AnalysisOf(lib, data) == None
  {
  }

  /** Short inputs are not analysed. */
  lemma ShortInputNotAnalysed(lib: PsbtLib, data: string)
    requires |data| < 10
    ensures AnalysisOf(lib, data) == None
  {
  }

  lemma {:induction false} DerivationFingerprintsMembers(ds: seq<Derivation>, fp: string)
    ensures fp in DerivationFingerprints(ds) <==>
      exists j :: 0 <= j < |ds| && ds[j].fingerprint != 0 && NatToHex(ds[j].fingerprint) == fp
  {
    if ds != [] {
      var n := |ds| - 1;
      DerivationFingerprintsMembers(ds[..n], fp);
      if fp in DerivationFingerprints(ds[..n]) {
        var j :| 0 <= j < n && ds[..n][j].fingerprint != 0 && NatToHex(ds[..n][j].fingerprint) == fp;
        assert ds[j] == ds[..n][j];
      }
      if exists j :: 0 <= j < |ds| && ds[j].fingerprint != 0 && NatToHex(ds[j].fingerprint) == fp {
        var j :| 0 <= j < |ds| && ds[j].fingerprint != 0 && NatToHex(ds[j].fingerprint) == fp;
        if j < n {
          assert ds[..n][j] == ds[j];
        }
      }
    }
  }

  /** The signer set is exactly the non-zero fingerprints in any input's derivations. */
  lemma {:induction false} InputFingerprintsMembers(inputs: seq<Input>, fp: string)
    ensures fp in InputFingerprints(inputs) <==>
      exists i :: 0 <= i < |inputs| && fp in DerivationFingerprints(inputs[i].derivations)
  {
    if inputs != [] {
      var n := |inputs| - 1;
      InputFingerprintsMembers(inputs[..n], fp);
      if fp in InputFingerprints(inputs[..n]) {
        var i :| 0 <= i < n && fp in DerivationFingerprints(inputs[..n][i].derivations);
        assert inputs[i] == inputs[..n][i];
      }
      if exists i :: 0 <= i < |inputs| && fp in DerivationFingerprints(inputs[i].derivations) {
        var i :| 0 <= i < |inputs| && fp in DerivationFingerprints(inputs[i].derivations);
        if i < n {
          assert inputs[..n][i] == inputs[i];
        }
      }
    }
  }

  /** The signer count is the number of distinct fingerprints, or 1 when there are none; so it is
      never 0. */
  lemma SignerCountOfSummary(tx: Tx)
    ensures Summary(tx).signerCount >= 1
    ensures |InputFingerprints(tx.inputs)| > 0 ==> Summary(tx).signerCount == |InputFingerprints(tx.inputs)|
  {
  }

  function DerivationCount(inputs: seq<Input>): nat {
    if inputs == [] then 0 else DerivationCount(inputs[..|inputs| - 1]) + |inputs[|inputs| - 1].derivations|
  }

  /** Every derivation path of every input has coin type `coin`. */
  predicate AllOnCoin(inputs: seq<Input>, coin: nat) {
    forall i, j :: 0 <= i < |inputs| && 0 <= j < |inputs[i].derivations| ==>
      |inputs[i].derivations[j].path| > 1 && inputs[i].derivations[j].path[1] == coin
  }

  lemma {:induction false} UnanimousDerivations(ds: seq<Derivation>, coin: nat)
    requires coin == MainnetCoin || coin == TestnetCoin
    requires forall j :: 0 <= j < |ds| ==> |ds[j].path| > 1 && ds[j].path[1] == coin
    ensures DerivationScore(ds) == (if coin == MainnetCoin then 0 - |ds| else |ds|)
  {
    if ds != [] {
      var n := |ds| - 1;
      assert forall j :: 0 <= j < n ==> ds[..n][j] == ds[j];
      UnanimousDerivations(ds[..n], coin);
    }
  }

  lemma {:induction false} UnanimousScore(inputs: seq<Input>, coin: nat)
    requires coin == MainnetCoin || coin == TestnetCoin
    requires AllOnCoin(inputs, coin)
    ensures NetworkScore(inputs) == (if coin == MainnetCoin then 0 - DerivationCount(inputs) else DerivationCount(inputs))
  {
    if inputs != [] {
      var n := |inputs| - 1;
      assert forall i :: 0 <= i < n ==> inputs[..n][i] == inputs[i];
      UnanimousScore(inputs[..n], coin);
      UnanimousDerivations(inputs[n].derivations, coin);
    }
  }

  /** Paths all on coin type 0' are detected as mainnet, all on 1' as testnet, as soon as there
      is one; with none the network is unknown. */
  lemma UnanimousNetwork(tx: Tx, coin: nat)
    requires coin == MainnetCoin || coin == TestnetCoin
    requires AllOnCoin(tx.inputs, coin)
    ensures DerivationCount(tx.inputs) > 0 ==> Summary(tx).detectedNetwork == (if coin == MainnetCoin then Bitcoin else Testnet)
    ensures DerivationCount(tx.inputs) == 0 ==> Summary(tx).detectedNetwork == Unknown
  {
    UnanimousScore(tx.inputs, coin);
  }

  /** The fee is inputs minus outputs as soon as there is any input value, even when that is
      negative; a negative or zero fee is never flagged as high. */
  lemma FeeIsNotClamped(tx: Tx, selectedTier: Tier)
    ensures TotalInput(tx.inputs) > 0 ==> Summary(tx).networkFeeSat == TotalInput(tx.inputs) - TotalOutput(tx.outputs)
    ensures TotalInput(tx.inputs) == 0 ==> Summary(tx).networkFeeSat == 0
    ensures 0 < TotalInput(tx.inputs) < TotalOutput(tx.outputs) ==> Summary(tx).networkFeeSat < 0 && DetailsOf(tx).fee == 0
    ensures Summary(tx).networkFeeSat <= 0 ==> !IsHighFee(Some(Summary(tx)))
  {
  }

  // ---------------------------------------------------------------------------------------
  // The page's predicates
  // ---------------------------------------------------------------------------------------

  /** `isEnterpriseKey`. */
  predicate IsEnterpriseKey(modalLicenseKey: string) {
    |modalLicenseKey| > 5
  }

  /** `isSignerLimitExceeded`: without a license and outside a one-off room, more than three
      signers are too many. */
  predicate IsSignerLimitExceeded(analysis: Option<Analysis>, modalLicenseKey: string, tier: Tier) {
    analysis.Some? && !IsEnterpriseKey(modalLicenseKey) && tier != OneOff && analysis.value.signerCount > 3
  }

  /** `isNetworkMismatch`. */
  predicate IsNetworkMismatch(analysis: Option<Analysis>, selected: Network) {
    && analysis.Some?
    && analysis.value.detectedNetwork != Unknown
    && ((analysis.value.detectedNetwork == Bitcoin && (selected == Testnet || selected == Signet))
        || (analysis.value.detectedNetwork == Testnet && selected == Bitcoin))
  }

  /** `isHighFee`, with its two ratios compared exactly: more than 100 sat/vB on the estimated
      size, or more than 5% of the output total. */
  predicate IsHighFee(analysis: Option<Analysis>) {
    && analysis.Some?
    && var a := analysis.value;
       var estVBytes := a.signerCount * 68 + a.outputCount * 31 + 10;
       && a.networkFeeSat != 0
       && (a.networkFeeSat > 100 * estVBytes || (a.totalOutput > 0 && 20 * a.networkFeeSat > a.totalOutput))
  }

  lemma SignerLimitCases(analysis: Option<Analysis>, modalLicenseKey: string, tier: Tier)
    ensures tier == OneOff || IsEnterpriseKey(modalLicenseKey) || analysis.None? ==> !IsSignerLimitExceeded(analysis, modalLicenseKey, tier)
    ensures analysis.Some? && analysis.value.signerCount <= 3 ==> !IsSignerLimitExceeded(analysis, modalLicenseKey, tier)
    ensures analysis.Some? && analysis.value.signerCount > 3 && tier == Free && !IsEnterpriseKey(modalLicenseKey) ==> IsSignerLimitExceeded(analysis, modalLicenseKey, tier)
  {
  }

  /** A five-signer PSBT on a free room without a key exceeds the limit. */
  lemma FiveSignersOnFreeExceed(a: Analysis)
    requires a.signerCount == 5
    ensures IsSignerLimitExceeded(Some(a), "", Free)
  {
  }

  /** Only a contradiction between a detected network and the selected one is a mismatch; a
      mainnet PSBT with testnet selected is one. */
  lemma NetworkMismatchCases(analysis: Option<Analysis>, selected: Network)
    ensures analysis.None? || analysis.value.detectedNetwork == Unknown ==> !IsNetworkMismatch(analysis, selected)
    ensures analysis.Some? && analysis.value.detectedNetwork == selected ==> !IsNetworkMismatch(analysis, selected)
    ensures analysis.Some? && analysis.value.detectedNetwork == Testnet && selected == Signet ==> !IsNetworkMismatch(analysis, selected)
    ensures analysis.Some? && analysis.value.detectedNetwork == Bitcoin && selected == Testnet ==> IsNetworkMismatch(analysis, selected)
  {
  }

  lemma HighFeeCases(a: Analysis)
    ensures a.networkFeeSat <= 0 ==> !IsHighFee(Some(a))
    ensures a.networkFeeSat > 100 * (a.signerCount * 68 + a.outputCount * 31 + 10) ==> IsHighFee(Some(a))
    ensures a.totalOutput > 0 && 20 * a.networkFeeSat > a.totalOutput ==> IsHighFee(Some(a))
    ensures !IsHighFee(None)
  {
  }

  /** `isHex` after `normalizeInput` accepts exactly the hex text the file checks produce from a
      binary PSBT. */
  lemma BinaryHexIsPsbtHex(lib: PsbtLib, bytes: seq<byte>)
    requires FileCheck.IsBinaryPsbt(bytes)
    ensures IsPsbtHex(RemoveSpaces(HexEncode(bytes)))
    ensures AnalysisBytes(lib, HexEncode(bytes)) == Some(bytes)
  {
    var s := HexEncode(bytes);
    HexEncodeDigits(bytes);
    RemoveSpacesFacts(s);
    assert RemoveSpaces(s) == s;
    assert IsHexText(s);
    HexOfPsbtStartsWithMagic(bytes);
    HexRoundTrip(bytes);
  }

  // ---------------------------------------------------------------------------------------
  // Launching a room
  // ---------------------------------------------------------------------------------------

  /** The body of the `POST /api/room` request. */
  datatype CreateRequest = CreateRequest(tier: string, licenseKey: Option<string>, encryptedPsbt: string, network: Network)

  /** The tier and the license `launchRoom` sends: a free room carries none; a one-off room is
      an enterprise room, with the key when it looks like one. */
  function LaunchTier(tier: Tier, modalLicenseKey: string): (r: (string, Option<string>)) {
    if tier == Free then ("free", None)
    else if IsEnterpriseKey(modalLicenseKey) then ("enterprise", Some(modalLicenseKey))
    else ("enterprise", None)
  }

  lemma LaunchTierCases(tier: Tier, modalLicenseKey: string)
    ensures LaunchTier(tier, modalLicenseKey).1.Some? <==> tier == OneOff && |modalLicenseKey| > 5
    ensures LaunchTier(tier, modalLicenseKey).0 == "free" <==> tier == Free
    ensures LaunchTier(tier, modalLicenseKey).1.Some? ==> LaunchTier(tier, modalLicenseKey).1.value == modalLicenseKey
  {
  }

  /** The request `launchRoom` sends, or None when there is no data or the encryption rejects;
      `roomKey` and `iv` are the random key and IV it draws. */
  function LaunchRequestOf(crypto: Encryption.Primitives, rawHex: string, tier: Tier, modalLicenseKey: string, network: Network, roomKey: string, iv: seq<byte>): Option<CreateRequest> {
    if rawHex == "" then None
    else
      match Encryption.EncryptSpec(crypto, RemoveSpaces(rawHex), roomKey, iv)
      case Err(_) => None
      case Ok(encrypted) =>
        var (t, license) := LaunchTier(tier, modalLicenseKey);
        Some(CreateRequest(t, license, encrypted, network))
  }

  /** The room's PSBT is sent encrypted under the key the invite link carries, and decrypts back
      to the data without its whitespace. */
  lemma LaunchedPsbtDecrypts(crypto: Encryption.Primitives, rawHex: string, tier: Tier, modalLicenseKey: string, network: Network, roomKey: string, iv: seq<byte>)
    requires Encryption.Sound(crypto) && Encryption.RawKey(crypto, roomKey).Ok? && |iv| == Encryption.IvLength
    requires rawHex != ""
    ensures var r := LaunchRequestOf(crypto, rawHex, tier, modalLicenseKey, network, roomKey, iv);
      && r.Some?
      && Encryption.DecryptSpec(crypto, r.value.encryptedPsbt, roomKey) == Ok(RemoveSpaces(rawHex))
      && r.value.network == network
  {
    Encryption.RoundTrip(crypto, RemoveSpaces(rawHex), roomKey, iv);
  }

  class CreatePage {
    const crypto: Encryption.Primitives
    const lib: PsbtLib

    var selectedTier: Tier
    var selectedNetwork: Network
    var modalLicenseKey: string
    var rawHex: string
    var hasFile: bool
    var analysis: Option<Analysis>

    /** `savedLicense` is what local storage holds under `signing_room_license`. */
    constructor(crypto: Encryption.Primitives, lib: PsbtLib, savedLicense: Option<string>)
      ensures this.crypto == crypto && this.lib == lib
      ensures selectedTier == Free && selectedNetwork == Bitcoin && rawHex == "" && !hasFile && analysis == None
      ensures modalLicenseKey == (if KeyPresentText(savedLicense) then savedLicense.value else "")
    {
      this.crypto := crypto;
      this.lib := lib;
      selectedTier := Free;
      selectedNetwork := Bitcoin;
      rawHex := "";
      hasFile := false;
      analysis := None;
      modalLicenseKey := if KeyPresentText(savedLicense) then savedLicense.value else "";
    }

    /** The derivation loop of `analyzeRawHex` for one input. */
    static method ScanDerivations(ds: seq<Derivation>) returns (fingerprints: set<string>, score: int)
      ensures fingerprints == DerivationFingerprints(ds) && score == DerivationScore(ds)
    {
      fingerprints, score := {}, 0;
      var j := 0;
      while j < |ds|
        invariant 0 <= j <= |ds|
        invariant fingerprints == DerivationFingerprints(ds[..j]) && score == DerivationScore(ds[..j])
      {
        assert ds[..j + 1][..j] == ds[..j];
        var d := ds[j];
        if d.fingerprint != 0 {
          fingerprints := fingerprints + {NatToHex(d.fingerprint)};
        }
        if |d.path| > 1 {
          if d.path[1] == MainnetCoin {
            score := score - 1;
          }
          if d.path[1] == TestnetCoin {
            score := score + 1;
          }
        }
        j := j + 1;
      }
      assert ds[..j] == ds;
    }

    /** The input loop of `analyzeRawHex`. */
    static method ScanInputs(inputs: seq<Input>) returns (totalInput: nat, fingerprints: set<string>, score: int)
      ensures totalInput == TotalInput(inputs)
      ensures fingerprints == InputFingerprints(inputs) && score == NetworkScore(inputs)
    {
      totalInput, fingerprints, score := 0, {}, 0;
      var i := 0;
      while i < |inputs|
        invariant 0 <= i <= |inputs|
        invariant totalInput == TotalInput(inputs[..i])
        invariant fingerprints == InputFingerprints(inputs[..i]) && score == NetworkScore(inputs[..i])
      {
        assert inputs[..i + 1][..i] == inputs[..i];
        var input := inputs[i];
        if input.witnessUtxo.Some? {
          totalInput := totalInput + input.witnessUtxo.value.amount;
        }
        var fs, s := ScanDerivations(input.derivations);
        fingerprints := fingerprints + fs;
        score := score + s;
        i := i + 1;
      }
      assert inputs[..i] == inputs;
    }

    /** The output loop of `analyzeRawHex`: the total, or None at the first dust output. */
    static method ScanOutputs(outputs: seq<Output>) returns (r: Option<nat>)
      ensures r.None? <==> HasDust(outputs)
      ensures r.Some? ==> r.value == TotalOutput(outputs)
    {
      var totalOutput: nat := 0;
      var i := 0;
      while i < |outputs|
        invariant 0 <= i <= |outputs|
        invariant totalOutput == TotalOutput(outputs[..i])
        invariant !HasDust(outputs[..i])
      {
        assert outputs[..i + 1][..i] == outputs[..i];
        var amount := outputs[i].amount;
        totalOutput := totalOutput + amount;
        if amount < DustLimit {
          return None;
        }
        assert forall k :: 0 <= k < i + 1 ==> outputs[..i + 1][k] == outputs[k];
        i := i + 1;
      }
      assert outputs[..i] == outputs;
      r := Some(totalOutput);
    }

    /** `analyzeRawHex`. */
    method AnalyzeRawHex(data: string)
      modifies this
      ensures analysis == AnalysisOf(lib, data)
      ensures selectedTier == old(selectedTier) && selectedNetwork == old(selectedNetwork)
      ensures modalLicenseKey == old(modalLicenseKey) && rawHex == old(rawHex) && hasFile == old(hasFile)
    {
      if data == "" || |data| < 10 {
        analysis := None;
        return;
      }
      var clean := RemoveSpaces(data);
      var bytes := if IsPsbtHex(clean) then HexDecode(clean) else lib.base64Decode(clean);
      if bytes.None? {
        analysis := None;
        return;
      }
      var tx := lib.fromPsbt(bytes.value);
      if tx.None? {
        analysis := None;
        return;
      }
      analysis := AnalyzeTx(tx.value);
    }

    /** The part of `analyzeRawHex` after the parse: the input and output loops, then the
        summary, or nothing when an output is dust. */
    method AnalyzeTx(tx: Tx) returns (a: Option<Analysis>)
      ensures HasDust(tx.outputs) ==> a.None?
      ensures !HasDust(tx.outputs) ==> a == Some(Summary(tx))
    {
      var totalInput, fingerprints, score := ScanInputs(tx.inputs);
      var totalOutput := ScanOutputs(tx.outputs);
      if totalOutput.None? {
        return None;
      }
      var fee: int := if totalInput > 0 then totalInput as int - totalOutput.value else 0;
      var detected := if score > 0 then Testnet else if score < 0 then Bitcoin else Unknown;
      a := Some(Analysis(if |fingerprints| == 0 then 1 else |fingerprints|, totalOutput.value, fee, |tx.outputs|, detected));
    }

    /** `onFileSelected`: a refused name or size changes nothing; past those the file is kept,
      and accepted content becomes the raw data and is analysed. */
    method OnFileSelected(name: string, bytes: seq<byte>)
      modifies this
      ensures var outcome := FileCheck.CheckFile(name, bytes, crypto.utf8Decode);
        match outcome
        case BadExtension => unchanged(this)
        case TooLarge => unchanged(this)
        case RawTransaction => hasFile && rawHex == old(rawHex) && analysis == old(analysis)
        case Accepted(content) => hasFile && rawHex == content && analysis == AnalysisOf(lib, content)
      ensures selectedTier == old(selectedTier) && selectedNetwork == old(selectedNetwork) && modalLicenseKey == old(modalLicenseKey)
    {
      var outcome := FileCheck.CheckFile(name, bytes, crypto.utf8Decode);
      if outcome.BadExtension? || outcome.TooLarge? {
        return;
      }
      hasFile := true;
      if outcome.Accepted? {
        rawHex := outcome.content;
        AnalyzeRawHex(outcome.content);
      }
    }

    /** `launchRoom`: the request it posts. */
    method LaunchRoom(roomKey: string, iv: seq<byte>) returns (request: Option<CreateRequest>)
      requires |iv| == Encryption.IvLength
      ensures request == LaunchRequestOf(crypto, rawHex, selectedTier, modalLicenseKey, selectedNetwork, roomKey, iv)
    {
      if rawHex == "" {
        return None;
      }
      var encrypted := Encryption.Encrypt(crypto, RemoveSpaces(rawHex), roomKey, iv);
      if encrypted.Err? {
        return None;
      }
      var isFree := selectedTier == Free;
      var licenseKey: Option<string> := if isFree then None else if IsEnterpriseKey(modalLicenseKey) then Some(modalLicenseKey) else None;
      var tier := if licenseKey.Some? then "enterprise" else if isFree then "free" else "enterprise";
      request := Some(CreateRequest(tier, licenseKey, encrypted.value, selectedNetwork));
    }
  }

  /** A truthy stored string. */
  predicate KeyPresentText(s: Option<string>) {
    s.Some? && s.value != ""
  }
}
