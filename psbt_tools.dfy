/** The socket service's PSBT helpers: text decoding and normalisation, merging, the multisig
    threshold, public-key comparison, the signer list, the transaction summary and the
    fingerprint of an uploaded partial. */
module PsbtTools {
  import opened Common
  import opened Psbt

  // ---------------------------------------------------------------------------------------
  // Text forms
  // ---------------------------------------------------------------------------------------

  /** `decodePsbt`: whitespace removed, then hexadecimal if the text is all hex digits and
      base64 otherwise. None when the chosen decoder throws. */
  function DecodePsbt(lib: PsbtLib, raw: string): (r: Option<seq<byte>>)
    ensures IsHexText(RemoveSpaces(raw)) ==> r == HexDecode(RemoveSpaces(raw))
  {
    var clean := RemoveSpaces(raw);
    if IsHexText(clean) then HexDecode(clean) else lib.base64Decode(clean)
  }

  /** Hex-armoured PSBT bytes decode back to themselves. */
  lemma DecodeHexPsbt(lib: PsbtLib, bytes: seq<byte>)
    requires |bytes| > 0
    ensures DecodePsbt(lib, HexEncode(bytes)) == Some(bytes)
  {
    var s := HexEncode(bytes);
    HexEncodeDigits(bytes);
    RemoveSpacesFacts(s);
    assert RemoveSpaces(s) == s;
    assert IsHexText(s);
    HexRoundTrip(bytes);
  }

  /** `normalizePsbt`: trimmed; a hexadecimal text that starts with the PSBT magic is re-encoded
      as base64, and if hex decoding throws the untrimmed input comes back. */
  function NormalizePsbt(lib: PsbtLib, input: string): (r: string)
    ensures !(IsHexText(Trim(input)) && StartsWith(Lower(Trim(input)), MagicHex)) ==> r == Trim(input)
  {
    var clean := Trim(input);
    if IsHexText(clean) && StartsWith(Lower(clean), MagicHex) then
      match HexDecode(clean)
      case None => input
      case Some(bytes) => lib.base64Encode(bytes)
    else clean
  }

  lemma HexOfPsbtStartsWithMagic(bytes: seq<byte>)
    requires |bytes| >= 4 && bytes[..4] == Magic[..4]
    ensures StartsWith(Lower(HexEncode(bytes)), MagicHex)
  {
    HexOfPsbtHead(bytes);
    LowerKeepsMagic(HexEncode(bytes));
  }

  lemma HexOfPsbtHead(bytes: seq<byte>)
    requires |bytes| >= 4 && bytes[..4] == Magic[..4]
    ensures |HexEncode(bytes)| >= 8 && HexEncode(bytes)[..8] == MagicHex
  {
    HexEncodeAppend(bytes[..4], bytes[4..]);
    assert bytes[..4] + bytes[4..] == bytes;
    MagicHexIsHexOfMagic();
  }

  lemma LowerKeepsMagic(s: string)
    requires |s| >= 8 && s[..8] == MagicHex
    ensures StartsWith(Lower(s), MagicHex)
  {
    LowerPrefix(s, 8);
    assert Lower(MagicHex) == MagicHex;
  }

  /** The hex form of a PSBT (its bytes begin with the magic) normalises to the base64 form. */
  lemma NormalizeHexPsbt(lib: PsbtLib, bytes: seq<byte>)
    requires |bytes| >= 4 && bytes[..4] == Magic[..4]
    ensures NormalizePsbt(lib, HexEncode(bytes)) == lib.base64Encode(bytes)
  {
    var s := HexEncode(bytes);
    HexEncodeDigits(bytes);
    assert IsHexText(s);
    assert !IsSpace(s[0]) && !IsSpace(s[|s| - 1]);
    TrimUntrimmable(s);
    HexOfPsbtStartsWithMagic(bytes);
    HexRoundTrip(bytes);
    NormalizeDecodable(lib, s, bytes);
  }

  /** A trimmed hexadecimal text that starts with the magic and decodes to `bytes` normalises to
      the base64 form of `bytes`. */
  lemma NormalizeDecodable(lib: PsbtLib, s: string, bytes: seq<byte>)
    requires Trim(s) == s && IsHexText(s) && StartsWith(Lower(s), MagicHex)
    requires HexDecode(s) == Some(bytes)
    ensures NormalizePsbt(lib, s) == lib.base64Encode(bytes)
  {
  }

  /** A text that is already trimmed and not hexadecimal passes through unchanged. */
  lemma NormalizeKeepsBase64(lib: PsbtLib, text: string)
    requires text == "" || (!IsSpace(text[0]) && !IsSpace(text[|text| - 1]))
    requires !IsHexText(text)
    ensures NormalizePsbt(lib, text) == text
  {
    TrimUntrimmable(text);
  }

  /** `mergePsbts`: decode and parse both, combine into the first, serialise as base64. Any
      step that throws leaves `base` unchanged. */
  function MergePsbts(lib: PsbtLib, base: string, next: string): (r: string)
    ensures DecodePsbt(lib, base).None? ==> r == base
    ensures DecodePsbt(lib, next).None? ==> r == base
  {
    match DecodePsbt(lib, base)
    case None => base
    case Some(baseBytes) =>
      match DecodePsbt(lib, next)
      case None => base
      case Some(nextBytes) =>
        match lib.fromPsbt(baseBytes)
        case None => base
        case Some(txBase) =>
          match lib.fromPsbt(nextBytes)
          case None => base
          case Some(txNext) =>
            match lib.combine(txBase, txNext)
            case None => base
            case Some(combined) => lib.base64Encode(lib.toPsbt(combined))
  }

  /** The merge succeeds exactly when both texts decode and parse and the library combines
      them; the result is then the base64 of the combination. */
  lemma MergeOutcome(lib: PsbtLib, base: string, next: string)
    ensures var parsed := (
              if DecodePsbt(lib, base).Some? && DecodePsbt(lib, next).Some?
              then (lib.fromPsbt(DecodePsbt(lib, base).value), lib.fromPsbt(DecodePsbt(lib, next).value))
              else (None, None));
            if parsed.0.Some? && parsed.1.Some? && lib.combine(parsed.0.value, parsed.1.value).Some?
            then MergePsbts(lib, base, next) == lib.base64Encode(lib.toPsbt(lib.combine(parsed.0.value, parsed.1.value).value))
            else MergePsbts(lib, base, next) == base
  {
  }

  /** The fold `handleStateSync` runs: `mergePsbts` over the history, from the left. */
  function MergeAll(lib: PsbtLib, master: string, history: seq<string>): string
  {
    if history == [] then master
    else MergePsbts(lib, MergeAll(lib, master, history[..|history| - 1]), history[|history| - 1])
  }

  /** The fold over one more partial is one more merge. */
  lemma MergeAllStep(lib: PsbtLib, master: string, history: seq<string>, j: nat)
    requires j < |history|
    ensures MergeAll(lib, master, history[..j + 1]) == MergePsbts(lib, MergeAll(lib, master, history[..j]), history[j])
  {
    assert history[..j + 1][..j] == history[..j];
  }

  /** When every partial in the history fails to decode, the merged result is the master. */
  lemma {:induction false} MergeAllUndecodable(lib: PsbtLib, master: string, history: seq<string>)
    requires forall i :: 0 <= i < |history| ==> DecodePsbt(lib, history[i]).None?
    ensures MergeAll(lib, master, history) == master
  {
    if history != [] {
      MergeAllUndecodable(lib, master, history[..|history| - 1]);
    }
  }

  /** `base64.decode` followed by `Transaction.fromPSBT`; None when either throws. */
  function ParseBase64(lib: PsbtLib, text: string): Option<Tx> {
    match lib.base64Decode(text)
    case None => None
    case Some(bytes) => lib.fromPsbt(bytes)
  }

  // ---------------------------------------------------------------------------------------
  // Threshold
  // ---------------------------------------------------------------------------------------

  /** `input.witnessScript || input.redeemScript`. */
  function SpendScript(input: Input): Option<seq<byte>> {
    if input.witnessScript.Some? then input.witnessScript else input.redeemScript
  }

  /** The first byte of the first input's spend script, when there is one. */
  function LeadingOpcode(tx: Tx): Option<byte> {
    if |tx.inputs| == 0 then None
    else
      var script := SpendScript(tx.inputs[0]);
      if script.None? || |script.value| == 0 then None else Some(script.value[0])
  }

  /** `getThreshold`: the `m` of a leading OP_1 … OP_16 (0x51 … 0x60), and 0 for anything else,
      including a missing or empty script, no inputs, and a parse failure. */
  function GetThreshold(lib: PsbtLib, text: string): (m: nat)
    ensures m <= 16
    ensures m > 0 ==> ParseBase64(lib, text).Some? && LeadingOpcode(ParseBase64(lib, text).value) == Some(0x50 + m)
    ensures ParseBase64(lib, text).None? ==> m == 0
    ensures ParseBase64(lib, text).Some? && LeadingOpcode(ParseBase64(lib, text).value).Some?
      && 0x51 <= LeadingOpcode(ParseBase64(lib, text).value).value <= 0x60
      ==> m == LeadingOpcode(ParseBase64(lib, text).value).value as nat - 0x50
  {
    match ParseBase64(lib, text)
    case None => 0
    case Some(tx) =>
      if |tx.inputs| == 0 then 0
      else
        var script := SpendScript(tx.inputs[0]);
        if script.None? || |script.value| == 0 then 0
        else
          var firstOp := script.value[0];
          if 0x51 <= firstOp <= 0x60 then firstOp - 0x50 else 0
  }

  /** The pushes of a BIP 11 key list: each key preceded by its length. */
  function KeyPushes(keys: seq<seq<byte>>): seq<byte>
    requires forall i :: 0 <= i < |keys| ==> 1 <= |keys[i]| <= 75
  {
    if keys == [] then []
    else [|keys[0]| as byte] + keys[0] + KeyPushes(keys[1..])
  }

  /** The BIP 11 script `OP_m <key>… OP_n OP_CHECKMULTISIG`. */
  function MultisigScript(m: nat, keys: seq<seq<byte>>): (script: seq<byte>)
    requires 1 <= m <= |keys| <= 16
    requires forall i :: 0 <= i < |keys| ==> 1 <= |keys[i]| <= 75
    ensures |script| > 0 && script[0] == 0x50 + m
  {
    [0x50 + m] + KeyPushes(keys) + [0x50 + |keys|, 0xae]
  }

  /** A PSBT whose first input spends an m-of-n multisig script (as a segwit witness script or
      as a P2SH redeem script) has threshold m. */
  lemma ThresholdOfMultisig(lib: PsbtLib, text: string, m: nat, keys: seq<seq<byte>>)
    requires 1 <= m <= |keys| <= 16
    requires forall i :: 0 <= i < |keys| ==> 1 <= |keys[i]| <= 75
    requires ParseBase64(lib, text).Some? && |ParseBase64(lib, text).value.inputs| > 0
    requires SpendScript(ParseBase64(lib, text).value.inputs[0]) == Some(MultisigScript(m, keys))
    ensures GetThreshold(lib, text) == m
  {
  }

  /** A text that does not parse, a PSBT without inputs, and a first input without a script
      have threshold 0. */
  lemma ThresholdZeroCases(lib: PsbtLib, text: string)
    requires ParseBase64(lib, text).None?
      || |ParseBase64(lib, text).value.inputs| == 0
      || SpendScript(ParseBase64(lib, text).value.inputs[0]).None?
      || SpendScript(ParseBase64(lib, text).value.inputs[0]) == Some([])
    ensures GetThreshold(lib, text) == 0
  {
  }

  // ---------------------------------------------------------------------------------------
  // Public keys
  // ---------------------------------------------------------------------------------------

  /** `getX`: the x coordinate of a SEC1 compressed (33-byte) or uncompressed (65-byte) key;
      any other key, such as a BIP 340 x-only key of 32 bytes, is taken as it is. */
  function XPart(k: seq<byte>): seq<byte> {
    if |k| == 33 then k[1..] else if |k| == 65 then k[1..33] else k
  }

  /** `areKeysEqual`: the hexadecimal renderings agree, or those of the x parts do. */
  function AreKeysEqual(k1: seq<byte>, k2: seq<byte>): (r: bool)
    ensures r <==> XPart(k1) == XPart(k2)
  {
    if HexEncode(k1) == HexEncode(k2) then
      HexEncodeInjective(k1, k2);
      true
    else if HexEncode(XPart(k1)) == HexEncode(XPart(k2)) then
      HexEncodeInjective(XPart(k1), XPart(k2));
      true
    else false
  }

  /** Key comparison is an equivalence relation. */
  lemma KeyEqualityIsEquivalence(a: seq<byte>, b: seq<byte>, c: seq<byte>)
    ensures AreKeysEqual(a, a)
    ensures AreKeysEqual(a, b) ==> AreKeysEqual(b, a)
    ensures AreKeysEqual(a, b) && AreKeysEqual(b, c) ==> AreKeysEqual(a, c)
  {
  }

  /** A compressed key matches its x-only form, and an uncompressed key matches the compressed
      key with the same x coordinate, whatever the prefix bytes. */
  lemma KeyEncodingsMatch(compressed: seq<byte>, uncompressed: seq<byte>)
    requires |compressed| == 33 && |uncompressed| == 65
    requires uncompressed[1..33] == compressed[1..]
    ensures AreKeysEqual(compressed, compressed[1..])
    ensures AreKeysEqual(uncompressed, compressed)
    ensures AreKeysEqual(uncompressed, compressed[1..])
  {
  }

  /** Two x-only keys match only when they are the same key. */
  lemma XOnlyKeysCompareExactly(a: seq<byte>, b: seq<byte>)
    requires |a| == 32 && |b| == 32
    ensures AreKeysEqual(a, b) <==> a == b
  {
  }

  // ---------------------------------------------------------------------------------------
  // Signers
  // ---------------------------------------------------------------------------------------

  datatype SignerStatus = SignerStatus(fingerprint: string, signed: bool)

  /** `fingerprint.toString(16).padStart(8, '0')`. */
  function FingerprintHex(fp: nat): (s: string)
    ensures |s| >= 8
    ensures forall i :: 0 <= i < |s| ==> IsHexDigit(s[i])
  {
    PadStart(NatToHex(fp), 8, '0')
  }

  /** The rendering denotes the fingerprint; a 32-bit fingerprint takes exactly eight digits. */
  lemma FingerprintHexDenotes(fp: nat)
    ensures HexNumber(FingerprintHex(fp)) == fp
    ensures fp < 0x1_0000_0000 ==> |FingerprintHex(fp)| == 8
  {
    NatToHexDenotes(fp);
    Pow16Eight();
    if fp < 0x1_0000_0000 {
      NatToHexLength(fp, 8);
    }
    PadStartKeepsNumber(NatToHex(fp));
  }

  /** Padding a hexadecimal text to eight digits with zeros keeps its number. */
  lemma PadStartKeepsNumber(h: string)
    requires forall i :: 0 <= i < |h| ==> IsHexDigit(h[i])
    ensures var p := PadStart(h, 8, '0');
      (forall i :: 0 <= i < |p| ==> IsHexDigit(p[i])) && HexNumber(p) == HexNumber(h)
  {
    if |h| < 8 {
      assert PadStart(h, 8, '0') == seq(8 - |h|, _ => '0') + h;
      LeadingZerosKeepNumber(8 - |h|, h);
    }
  }

  lemma Pow16Eight()
    ensures Pow16(8) == 0x1_0000_0000
  {
    assert Pow16(2) == 0x100;
    assert Pow16(4) == 0x1_0000;
    assert Pow16(6) == 0x100_0000;
  }

  /** Distinct fingerprints render differently, so entries keyed by the rendering are keyed by
      the fingerprint. */
  lemma FingerprintHexInjective(a: nat, b: nat)
    requires FingerprintHex(a) == FingerprintHex(b)
    ensures a == b
  {
    FingerprintHexDenotes(a);
    FingerprintHexDenotes(b);
  }

  /** `keys.some(k => areKeysEqual(k, pubkey))`. */
  predicate AnyKeyMatches(keys: seq<seq<byte>>, pubkey: seq<byte>) {
    exists j :: 0 <= j < |keys| && AreKeysEqual(keys[j], pubkey)
  }

  /** A derivation's key has signed the input, by a partial signature or a taproot script-path
      signature. */
  predicate IsSigned(input: Input, pubkey: seq<byte>) {
    AnyKeyMatches(input.partialSigKeys, pubkey) || AnyKeyMatches(input.tapScriptSigKeys, pubkey)
  }

  /** What one derivation entry contributes: nothing when its fingerprint is 0, otherwise its
      rendered fingerprint and whether its key signed the input. */
  function ObsOf(input: Input, d: Derivation): seq<SignerStatus> {
    if d.fingerprint == 0 then [] else [SignerStatus(FingerprintHex(d.fingerprint), IsSigned(input, d.pubkey))]
  }

  /** The observations of a list of derivation entries of one input, in order. */
  function DerivationObs(input: Input, ds: seq<Derivation>): seq<SignerStatus> {
    if ds == [] then [] else DerivationObs(input, ds[..|ds| - 1]) + ObsOf(input, ds[|ds| - 1])
  }

  function InputObs(input: Input): seq<SignerStatus> {
    DerivationObs(input, input.derivations)
  }

  /** The observations of every input, in input order. */
  function InputsObs(inputs: seq<Input>): seq<SignerStatus> {
    ConcatMap(inputs, InputObs)
  }

  /** Where `fp` sits in an insertion-ordered map held as a sequence of entries. */
  function Find(entries: seq<SignerStatus>, fp: string): (r: Option<nat>)
    ensures r.None? <==> !HasFingerprint(entries, fp)
    ensures r.Some? ==> r.value < |entries| && entries[r.value].fingerprint == fp
  {
    if entries == [] then None
    else if entries[0].fingerprint == fp then Some(0)
    else match Find(entries[1..], fp)
      case None =>
        assert forall i :: 1 <= i < |entries| ==> entries[i] == entries[1..][i - 1];
        None
      case Some(k) => Some(k + 1)
  }

  predicate HasFingerprint(entries: seq<SignerStatus>, fp: string) {
    exists i :: 0 <= i < |entries| && entries[i].fingerprint == fp
  }

  predicate SignedSomewhere(obs: seq<SignerStatus>, fp: string) {
    exists k :: 0 <= k < |obs| && obs[k].fingerprint == fp && obs[k].signed
  }

  predicate DistinctFingerprints(entries: seq<SignerStatus>) {
    forall i, j :: 0 <= i < j < |entries| ==> entries[i].fingerprint != entries[j].fingerprint
  }

  /** One observation entering the map: a new fingerprint is appended; a known one is marked
      signed when this observation is signed, and is otherwise left where and as it is. */
  function Upsert(entries: seq<SignerStatus>, o: SignerStatus): seq<SignerStatus> {
    match Find(entries, o.fingerprint)
    case None => entries + [o]
    case Some(j) => if o.signed then entries[j := SignerStatus(o.fingerprint, true)] else entries
  }

  /** Observations folded, in order, into a map that already holds `entries`. */
  function Fold(entries: seq<SignerStatus>, obs: seq<SignerStatus>): seq<SignerStatus> {
    if obs == [] then entries else Upsert(Fold(entries, obs[..|obs| - 1]), obs[|obs| - 1])
  }

  /** The signer list: the observations folded into an empty map. */
  function Group(obs: seq<SignerStatus>): seq<SignerStatus> {
    Fold([], obs)
  }

  lemma {:induction false} FoldAppend(entries: seq<SignerStatus>, a: seq<SignerStatus>, b: seq<SignerStatus>)
    ensures Fold(entries, a + b) == Fold(Fold(entries, a), b)
  {
    if b == [] {
      assert a + b == a;
    } else {
      FoldAppend(entries, a, b[..|b| - 1]);
      assert (a + b)[..|a + b| - 1] == a + b[..|b| - 1];
      assert (a + b)[|a + b| - 1] == b[|b| - 1];
    }
  }

  /** The value of the `signers` computed signal: the grouped observations of the parsed PSBT,
      or the empty list when it does not parse. */
  function SignersOf(lib: PsbtLib, text: string): seq<SignerStatus> {
    match ParseBase64(lib, text)
    case None => []
    case Some(tx) => Group(InputsObs(tx.inputs))
  }

  lemma UpsertKeepsDistinct(entries: seq<SignerStatus>, o: SignerStatus)
    requires DistinctFingerprints(entries)
    ensures DistinctFingerprints(Upsert(entries, o))
    ensures forall fp :: HasFingerprint(Upsert(entries, o), fp) <==> HasFingerprint(entries, fp) || fp == o.fingerprint
  {
    var after := Upsert(entries, o);
    forall fp ensures HasFingerprint(after, fp) <==> HasFingerprint(entries, fp) || fp == o.fingerprint {
      if HasFingerprint(after, fp) {
        var i :| 0 <= i < |after| && after[i].fingerprint == fp;
        if i < |entries| && after[i].fingerprint == entries[i].fingerprint {
          assert HasFingerprint(entries, fp);
        }
      }
      if HasFingerprint(entries, fp) {
        var i :| 0 <= i < |entries| && entries[i].fingerprint == fp;
        assert after[i].fingerprint == fp;
      }
      if fp == o.fingerprint {
        match Find(entries, o.fingerprint)
        case None => assert after[|entries|].fingerprint == fp;
        case Some(j) => assert after[j].fingerprint == fp;
      }
    }
  }

  /** `extractSigners` yields each fingerprint once. */
  lemma {:induction false} GroupDistinct(obs: seq<SignerStatus>)
    ensures DistinctFingerprints(Group(obs))
    ensures forall fp :: HasFingerprint(Group(obs), fp) <==> HasFingerprint(obs, fp)
  {
    if obs != [] {
      var init, o := obs[..|obs| - 1], obs[|obs| - 1];
      GroupDistinct(init);
      UpsertKeepsDistinct(Group(init), o);
      forall fp ensures HasFingerprint(obs, fp) <==> HasFingerprint(init, fp) || fp == o.fingerprint {
        if HasFingerprint(obs, fp) {
          var k :| 0 <= k < |obs| && obs[k].fingerprint == fp;
          if k < |init| { assert init[k] == obs[k]; }
        }
        if HasFingerprint(init, fp) {
          var k :| 0 <= k < |init| && init[k].fingerprint == fp;
          assert obs[k] == init[k];
        }
      }
    }
  }

  /** An entry is signed exactly when some observation of its fingerprint is signed. */
  lemma {:induction false} GroupSigned(obs: seq<SignerStatus>)
    ensures forall i :: 0 <= i < |Group(obs)| ==> (Group(obs)[i].signed <==> SignedSomewhere(obs, Group(obs)[i].fingerprint))
  {
    if obs != [] {
      var init, o := obs[..|obs| - 1], obs[|obs| - 1];
      GroupSigned(init);
      GroupDistinct(init);
      var g := Group(init);
      var after := Group(obs);
      assert after == Upsert(g, o);
      forall fp ensures SignedSomewhere(obs, fp) <==> SignedSomewhere(init, fp) || (fp == o.fingerprint && o.signed) {
        if SignedSomewhere(obs, fp) {
          var k :| 0 <= k < |obs| && obs[k].fingerprint == fp && obs[k].signed;
          if k < |init| { assert init[k] == obs[k]; }
        }
        if SignedSomewhere(init, fp) {
          var k :| 0 <= k < |init| && init[k].fingerprint == fp && init[k].signed;
          assert obs[k] == init[k];
        }
      }
      forall i | 0 <= i < |after| ensures after[i].signed <==> SignedSomewhere(obs, after[i].fingerprint) {
        match Find(g, o.fingerprint)
        case None =>
          if i == |g| {
            assert !HasFingerprint(init, o.fingerprint);
            assert !SignedSomewhere(init, o.fingerprint);
          } else {
            assert after[i] == g[i];
          }
        case Some(j) =>
          if i != j {
            assert after[i] == g[i];
            assert g[i].fingerprint != g[j].fingerprint;
          }
      }
    }
  }

  /** The fingerprints of a list of entries, in order. */
  function Fingerprints(entries: seq<SignerStatus>): (fps: seq<string>)
    ensures |fps| == |entries|
  {
    seq(|entries|, i requires 0 <= i < |entries| => entries[i].fingerprint)
  }

  /** First occurrences only, in the order they first occur. */
  function Dedup(xs: seq<string>): seq<string> {
    if xs == [] then []
    else
      var d := Dedup(xs[..|xs| - 1]);
      if xs[|xs| - 1] in d then d else d + [xs[|xs| - 1]]
  }

  lemma HasFingerprintIsMembership(entries: seq<SignerStatus>, fp: string)
    ensures HasFingerprint(entries, fp) <==> fp in Fingerprints(entries)
  {
    if fp in Fingerprints(entries) {
      var i :| 0 <= i < |entries| && Fingerprints(entries)[i] == fp;
      assert entries[i].fingerprint == fp;
    }
    if HasFingerprint(entries, fp) {
      var i :| 0 <= i < |entries| && entries[i].fingerprint == fp;
      assert Fingerprints(entries)[i] == fp;
    }
  }

  /** `extractSigners` lists fingerprints in the order they are first seen: Map insertion order. */
  lemma {:induction false} GroupOrder(obs: seq<SignerStatus>)
    ensures Fingerprints(Group(obs)) == Dedup(Fingerprints(obs))
  {
    if obs != [] {
      var init, o := obs[..|obs| - 1], obs[|obs| - 1];
      GroupOrder(init);
      var g := Group(init);
      assert Fingerprints(init) == Fingerprints(obs)[..|obs| - 1];
      assert Fingerprints(obs)[|obs| - 1] == o.fingerprint;
      HasFingerprintIsMembership(g, o.fingerprint);
      match Find(g, o.fingerprint)
      case None =>
        assert Fingerprints(g + [o]) == Fingerprints(g) + [o.fingerprint];
      case Some(j) =>
        assert Fingerprints(g[j := SignerStatus(o.fingerprint, true)]) == Fingerprints(g);
    }
  }

  /** `signerCount`: how many entries are signed. */
  function CountSigned(signers: seq<SignerStatus>): (n: nat)
    ensures n <= |signers|
  {
    if signers == [] then 0
    else CountSigned(signers[..|signers| - 1]) + (if signers[|signers| - 1].signed then 1 else 0)
  }

  /** `isReadyToBroadcast`. */
  predicate IsReadyToBroadcast(signers: seq<SignerStatus>) {
    |signers| > 0 && forall i :: 0 <= i < |signers| ==> signers[i].signed
  }

  /** Ready to broadcast means every listed signer is counted as signed. */
  lemma {:induction false} ReadyIffAllCounted(signers: seq<SignerStatus>)
    ensures IsReadyToBroadcast(signers) <==> |signers| > 0 && CountSigned(signers) == |signers|
    ensures CountSigned(signers) == |signers| <==> forall i :: 0 <= i < |signers| ==> signers[i].signed
  {
    if signers != [] {
      var init := signers[..|signers| - 1];
      ReadyIffAllCounted(init);
      assert forall i :: 0 <= i < |init| ==> init[i] == signers[i];
    }
  }

  /** A PSBT is ready exactly when it names at least one fingerprint and every fingerprint it
      names has a signed derivation somewhere. */
  lemma ReadyMeansEveryFingerprintSigned(obs: seq<SignerStatus>)
    ensures IsReadyToBroadcast(Group(obs)) <==>
      |obs| > 0 && forall k :: 0 <= k < |obs| ==> SignedSomewhere(obs, obs[k].fingerprint)
  {
    GroupDistinct(obs);
    GroupSigned(obs);
    var g := Group(obs);
    if IsReadyToBroadcast(g) {
      forall k | 0 <= k < |obs| ensures SignedSomewhere(obs, obs[k].fingerprint) {
        assert HasFingerprint(obs, obs[k].fingerprint);
        var i :| 0 <= i < |g| && g[i].fingerprint == obs[k].fingerprint;
      }
    }
    if |obs| > 0 && forall k :: 0 <= k < |obs| ==> SignedSomewhere(obs, obs[k].fingerprint) {
      assert HasFingerprint(obs, obs[0].fingerprint);
      forall i | 0 <= i < |g| ensures g[i].signed {
        assert HasFingerprint(g, g[i].fingerprint);
        var k :| 0 <= k < |obs| && obs[k].fingerprint == g[i].fingerprint;
      }
    }
  }

  /** `DerivationObs` is `ConcatMap` of the per-entry observation. */
  lemma {:induction false} DerivationObsIsConcatMap(input: Input, ds: seq<Derivation>, f: Derivation -> seq<SignerStatus>)
    requires forall d :: f(d) == ObsOf(input, d)
    ensures DerivationObs(input, ds) == ConcatMap(ds, f)
  {
    if ds != [] {
      DerivationObsIsConcatMap(input, ds[..|ds| - 1], f);
    }
  }

  lemma DerivationObsAppend(input: Input, a: seq<Derivation>, b: seq<Derivation>)
    ensures DerivationObs(input, a + b) == DerivationObs(input, a) + DerivationObs(input, b)
  {
    var f := (d: Derivation) => ObsOf(input, d);
    DerivationObsIsConcatMap(input, a + b, f);
    DerivationObsIsConcatMap(input, a, f);
    DerivationObsIsConcatMap(input, b, f);
    ConcatMapAppend(a, b, f);
  }

  lemma InputsObsAppend(a: seq<Input>, b: seq<Input>)
    ensures InputsObs(a + b) == InputsObs(a) + InputsObs(b)
  {
    ConcatMapAppend(a, b, InputObs);
  }

  /** Folding one more derivation entry folds its own observation into the map. */
  lemma FoldDerivationStep(entries: seq<SignerStatus>, input: Input, ds: seq<Derivation>, k: nat)
    requires k < |ds|
    ensures Fold(entries, DerivationObs(input, ds[..k + 1]))
         == Fold(Fold(entries, DerivationObs(input, ds[..k])), ObsOf(input, ds[k]))
  {
    DerivationObsStep(input, ds, k);
    FoldAppend(entries, DerivationObs(input, ds[..k]), ObsOf(input, ds[k]));
  }

  /** Grouping one more input folds that input's observations into the map. */
  lemma GroupInputsStep(inputs: seq<Input>, i: nat)
    requires i < |inputs|
    ensures Group(InputsObs(inputs[..i + 1])) == Fold(Group(InputsObs(inputs[..i])), InputObs(inputs[i]))
  {
    assert inputs[..i + 1] == inputs[..i] + [inputs[i]];
    InputsObsAppend(inputs[..i], [inputs[i]]);
    assert InputsObs([inputs[i]]) == InputObs(inputs[i]) by {
      assert [inputs[i]][..0] == [];
    }
    FoldAppend([], InputsObs(inputs[..i]), InputObs(inputs[i]));
  }

  /** One pass of the inner loop of `extractSigners`: the map is updated when the entry is
      signed or its fingerprint is new. */
  method ObserveDerivation(entries: seq<SignerStatus>, input: Input, d: Derivation) returns (r: seq<SignerStatus>)
    ensures r == Fold(entries, ObsOf(input, d))
  {
    r := entries;
    if d.fingerprint == 0 {
      return;
    }
    var fpHex := FingerprintHex(d.fingerprint);
    var isSigned := false;
    if |input.partialSigKeys| > 0 {
      isSigned := AnyKeyMatches(input.partialSigKeys, d.pubkey);
    }
    if !isSigned && |input.tapScriptSigKeys| > 0 {
      isSigned := AnyKeyMatches(input.tapScriptSigKeys, d.pubkey);
    }
    var at := Find(r, fpHex);
    if isSigned || at.None? {
      var current := if at.Some? then r[at.value].signed else false;
      if at.Some? {
        r := r[at.value := SignerStatus(fpHex, current || isSigned)];
      } else {
        r := r + [SignerStatus(fpHex, current || isSigned)];
      }
    }
    var o := SignerStatus(fpHex, IsSigned(input, d.pubkey));
    assert [o][..0] == [];
  }

  /** The inner loop of `extractSigners` over one input's derivation entries. */
  method ObserveInput(entries: seq<SignerStatus>, input: Input) returns (r: seq<SignerStatus>)
    ensures r == Fold(entries, InputObs(input))
  {
    var derivations := input.derivations;
    r := entries;
    var k := 0;
    assert derivations[..0] == [];
    while k < |derivations|
      invariant 0 <= k <= |derivations|
      invariant r == Fold(entries, DerivationObs(input, derivations[..k]))
    {
      r := ObserveDerivation(r, input, derivations[k]);
      FoldDerivationStep(entries, input, derivations, k);
      k := k + 1;
    }
    assert derivations[..k] == derivations;
  }

  /** `extractSigners`: the loop over the inputs, folding each derivation entry into an
      insertion-ordered map; the empty list when the text does not parse. */
  method ExtractSigners(lib: PsbtLib, text: string) returns (signers: seq<SignerStatus>)
    ensures signers == SignersOf(lib, text)
  {
    var parsed := ParseBase64(lib, text);
    if parsed.None? {
      return [];
    }
    var inputs := parsed.value.inputs;
    signers := [];
    var i := 0;
    while i < |inputs|
      invariant 0 <= i <= |inputs|
      invariant signers == Group(InputsObs(inputs[..i]))
    {
      signers := ObserveInput(signers, inputs[i]);
      GroupInputsStep(inputs, i);
      i := i + 1;
    }
    assert inputs[..i] == inputs;
  }

  // ---------------------------------------------------------------------------------------
  // Fingerprint of an uploaded partial
  // ---------------------------------------------------------------------------------------

  function FirstFingerprint(obs: seq<SignerStatus>): Option<string> {
    if |obs| == 0 then None else Some(obs[0].fingerprint)
  }

  /** The first non-zero fingerprint of the PSBT, rendered; the text is read with `decodePsbt`. */
  function FingerprintOf(lib: PsbtLib, text: string): Option<string> {
    match DecodePsbt(lib, text)
    case None => None
    case Some(bytes) =>
      match lib.fromPsbt(bytes)
      case None => None
      case Some(tx) => FirstFingerprint(InputsObs(tx.inputs))
  }

  /** The inner loop of `getFingerprintFromPsbt`: the first entry with a non-zero fingerprint. */
  method InputFingerprint(input: Input) returns (r: Option<string>)
    ensures r == FirstFingerprint(InputObs(input))
  {
    var derivations := input.derivations;
    var k := 0;
    assert derivations[..0] == [];
    while k < |derivations|
      invariant 0 <= k <= |derivations|
      invariant DerivationObs(input, derivations[..k]) == []
    {
      var d := derivations[k];
      if d.fingerprint != 0 {
        FirstNonZeroLeads(input, derivations, k);
        return Some(FingerprintHex(d.fingerprint));
      }
      DerivationObsStep(input, derivations, k);
      k := k + 1;
    }
    assert derivations[..k] == derivations;
    r := None;
  }

  /** One more derivation entry adds its own observation at the end. */
  lemma DerivationObsStep(input: Input, ds: seq<Derivation>, k: nat)
    requires k < |ds|
    ensures DerivationObs(input, ds[..k + 1]) == DerivationObs(input, ds[..k]) + ObsOf(input, ds[k])
  {
    assert ds[..k + 1][..k] == ds[..k];
  }

  /** When the entries before `k` all have a zero fingerprint and entry `k` does not, the
      first observation is entry `k`'s. */
  lemma FirstNonZeroLeads(input: Input, ds: seq<Derivation>, k: nat)
    requires k < |ds| && DerivationObs(input, ds[..k]) == [] && ds[k].fingerprint != 0
    ensures FirstFingerprint(DerivationObs(input, ds)) == Some(FingerprintHex(ds[k].fingerprint))
  {
    DerivationObsStep(input, ds, k);
    FirstFingerprintOfPrefix(input, ds, k + 1);
  }

  /** A non-empty observation of a prefix starts the observation of the whole list. */
  lemma FirstFingerprintOfPrefix(input: Input, ds: seq<Derivation>, n: nat)
    requires n <= |ds| && DerivationObs(input, ds[..n]) != []
    ensures FirstFingerprint(DerivationObs(input, ds)) == FirstFingerprint(DerivationObs(input, ds[..n]))
  {
    var head, tail := ds[..n], ds[n..];
    assert head + tail == ds;
    DerivationObsAppend(input, head, tail);
    FirstFingerprintAppend(DerivationObs(input, head), DerivationObs(input, tail));
  }

  lemma FirstFingerprintAppend(x: seq<SignerStatus>, y: seq<SignerStatus>)
    requires |x| > 0
    ensures FirstFingerprint(x + y) == FirstFingerprint(x)
  {
  }

  /** `getFingerprintFromPsbt`: the loops stop at the first derivation entry with a non-zero
      fingerprint. */
  method GetFingerprintFromPsbt(lib: PsbtLib, text: string) returns (r: Option<string>)
    ensures r == FingerprintOf(lib, text)
  {
    var bytes := DecodePsbt(lib, text);
    if bytes.None? {
      return None;
    }
    var parsed := lib.fromPsbt(bytes.value);
    if parsed.None? {
      return None;
    }
    var inputs := parsed.value.inputs;
    var i := 0;
    while i < |inputs|
      invariant 0 <= i <= |inputs|
      invariant InputsObs(inputs[..i]) == []
    {
      var found := InputFingerprint(inputs[i]);
      assert inputs[..i + 1][..i] == inputs[..i];
      if found.Some? {
        assert inputs[..i + 1] + inputs[i + 1..] == inputs;
        InputsObsAppend(inputs[..i + 1], inputs[i + 1..]);
        return found;
      }
      i := i + 1;
    }
    assert inputs[..i] == inputs;
    r := None;
  }

  /** The fingerprint detected for an upload heads the signer list of the same PSBT. */
  lemma {:induction false} FirstObservationLeadsGroup(obs: seq<SignerStatus>)
    requires |obs| > 0
    ensures |Group(obs)| > 0 && Group(obs)[0].fingerprint == obs[0].fingerprint
  {
    GroupOrder(obs);
    DedupHead(Fingerprints(obs));
  }

  lemma {:induction false} DedupHead(xs: seq<string>)
    requires |xs| > 0
    ensures |Dedup(xs)| > 0 && Dedup(xs)[0] == xs[0]
  {
    if |xs| > 1 {
      DedupHead(xs[..|xs| - 1]);
    }
  }

  // ---------------------------------------------------------------------------------------
  // Transaction summary
  // ---------------------------------------------------------------------------------------

  /** `formatScriptAddress`: segwit v0 and v1 programs get a `bc1q`/`bc1p` prefix in front of
      the hex after their two-byte header; other scripts are shown as hex. */
  function FormatScriptAddress(script: seq<byte>): string {
    var s := HexEncode(script);
    if StartsWith(s, "0014") then "bc1q" + s[4..]
    else if StartsWith(s, "0020") then "bc1q" + s[4..]
    else if StartsWith(s, "5120") then "bc1p" + s[4..]
    else s
  }

  /** The hex of a two-byte header and a program is the header's four digits, then the
      program's. */
  lemma HexAfterHeader(header: seq<byte>, program: seq<byte>)
    requires |header| == 2
    ensures var s := HexEncode(header + program);
      |s| >= 4 && s[..4] == HexEncode(header) && s[4..] == HexEncode(program)
  {
    HexEncodeAppend(header, program);
  }

  /** The hex of the three segwit headers. */
  lemma SegwitHeaderHex()
    ensures HexEncode([0x00, 0x14]) == "0014"
    ensures HexEncode([0x00, 0x20]) == "0020"
    ensures HexEncode([0x51, 0x20]) == "5120"
  {
    HexEncodeAppend([0x00], [0x14]);
    HexEncodeAppend([0x00], [0x20]);
    HexEncodeAppend([0x51], [0x20]);
  }

  /** The prefix test of `formatScriptAddress` on a text whose first four characters are one
      of the three segwit headers. */
  lemma SegwitPrefixDecides(s: string, h: string)
    requires |s| >= 4 && s[..4] == h
    requires h == "0014" || h == "0020" || h == "5120"
    ensures (if StartsWith(s, "0014") then "bc1q" + s[4..]
             else if StartsWith(s, "0020") then "bc1q" + s[4..]
             else if StartsWith(s, "5120") then "bc1p" + s[4..]
             else s) == (if h == "5120" then "bc1p" else "bc1q") + s[4..]
  {
    assert "0014"[2] != "0020"[2] && "5120"[0] != "0014"[0] && "5120"[0] != "0020"[0];
  }

  /** A P2WPKH, P2WSH or P2TR output script is shown as the prefix and the hex of its program. */
  lemma FormatSegwitScript(header: seq<byte>, program: seq<byte>)
    requires header == [0x00, 0x14] || header == [0x00, 0x20] || header == [0x51, 0x20]
    ensures FormatScriptAddress(header + program) ==
      (if header[0] == 0x51 then "bc1p" else "bc1q") + HexEncode(program)
  {
    HexAfterHeader(header, program);
    SegwitHeaderHex();
    SegwitPrefixDecides(HexEncode(header + program), HexEncode(header));
  }

  datatype InputRow = InputRow(address: string, amount: nat, txId: string, vout: nat)
  datatype OutputRow = OutputRow(address: string, amount: nat, isChange: bool)

  /** The integer part of `TxDetails`: total output, fee, input count and the two row lists. */
  datatype TxDetails = TxDetails(amount: nat, fee: nat, inputs: nat, inputsList: seq<InputRow>, outputs: seq<OutputRow>)

  function InputAmount(input: Input): nat {
    if input.witnessUtxo.Some? then input.witnessUtxo.value.amount else 0
  }

  function TotalInput(inputs: seq<Input>): nat {
    if inputs == [] then 0 else TotalInput(inputs[..|inputs| - 1]) + InputAmount(inputs[|inputs| - 1])
  }

  function TotalOutput(outputs: seq<Output>): nat {
    if outputs == [] then 0 else TotalOutput(outputs[..|outputs| - 1]) + outputs[|outputs| - 1].amount
  }

  /** The first eight hex digits of the previous transaction id, then "...". */
  function TxIdLabel(txid: seq<byte>): string {
    var h := HexEncode(txid);
    (if |h| < 8 then h else h[..8]) + "..."
  }

  function InputRowOf(input: Input): InputRow {
    var address :=
      if input.witnessUtxo.Some? then FormatScriptAddress(input.witnessUtxo.value.script)
      else if input.hasNonWitnessUtxo then "Legacy Input"
      else "Legacy/Unknown";
    if input.prevout.Some? then InputRow(address, InputAmount(input), TxIdLabel(input.prevout.value.txid), input.prevout.value.index)
    else InputRow(address, InputAmount(input), "????", 0)
  }

  /** An output is change when one of its derivation paths has 1 at the next-to-last level (the
      BIP 44 internal chain). */
  predicate IsChangeOutput(output: Output) {
    exists j :: 0 <= j < |output.derivations| && |output.derivations[j].path| >= 2
      && output.derivations[j].path[|output.derivations[j].path| - 2] == 1
  }

  function OutputRowOf(output: Output): OutputRow {
    OutputRow(FormatScriptAddress(output.script.GetOr([])), output.amount, IsChangeOutput(output))
  }

  function InputRows(inputs: seq<Input>): (rows: seq<InputRow>)
    ensures |rows| == |inputs|
  {
    if inputs == [] then [] else InputRows(inputs[..|inputs| - 1]) + [InputRowOf(inputs[|inputs| - 1])]
  }

  function OutputRows(outputs: seq<Output>): (rows: seq<OutputRow>)
    ensures |rows| == |outputs|
  {
    if outputs == [] then [] else OutputRows(outputs[..|outputs| - 1]) + [OutputRowOf(outputs[|outputs| - 1])]
  }

  function DetailsOf(tx: Tx): TxDetails {
    var totalInput := TotalInput(tx.inputs);
    var totalOutput := TotalOutput(tx.outputs);
    var fee := if totalInput > 0 && totalInput > totalOutput then totalInput - totalOutput else 0;
    TxDetails(totalOutput, fee, |tx.inputs|, InputRows(tx.inputs), OutputRows(tx.outputs))
  }

  /** The summary's fee is never negative and never more than the inputs: it is inputs minus
      outputs when that is positive and the inputs are known, and 0 otherwise. */
  lemma DetailsFeeClamped(tx: Tx)
    ensures DetailsOf(tx).fee <= TotalInput(tx.inputs)
    ensures DetailsOf(tx).fee + TotalOutput(tx.outputs) == TotalInput(tx.inputs) || DetailsOf(tx).fee == 0
    ensures DetailsOf(tx).fee == 0 <==> TotalInput(tx.inputs) <= TotalOutput(tx.outputs)
  {
  }

  /** The rows add up: the reported amount is the sum of the output rows, the input count is
      the number of input rows, and the amounts of the input rows add up to the total input. */
  lemma {:induction false} DetailsRowsAddUp(tx: Tx)
    ensures DetailsOf(tx).amount == SumOutputRows(DetailsOf(tx).outputs)
    ensures DetailsOf(tx).inputs == |DetailsOf(tx).inputsList|
    ensures SumInputRows(DetailsOf(tx).inputsList) == TotalInput(tx.inputs)
  {
    OutputRowsSum(tx.outputs);
    InputRowsSum(tx.inputs);
  }

  function SumOutputRows(rows: seq<OutputRow>): nat {
    if rows == [] then 0 else SumOutputRows(rows[..|rows| - 1]) + rows[|rows| - 1].amount
  }

  function SumInputRows(rows: seq<InputRow>): nat {
    if rows == [] then 0 else SumInputRows(rows[..|rows| - 1]) + rows[|rows| - 1].amount
  }

  lemma {:induction false} OutputRowsSum(outputs: seq<Output>)
    ensures SumOutputRows(OutputRows(outputs)) == TotalOutput(outputs)
  {
    if outputs != [] {
      var init := outputs[..|outputs| - 1];
      OutputRowsSum(init);
      var rows := OutputRows(outputs);
      assert rows[..|rows| - 1] == OutputRows(init);
    }
  }

  lemma {:induction false} InputRowsSum(inputs: seq<Input>)
    ensures SumInputRows(InputRows(inputs)) == TotalInput(inputs)
  {
    if inputs != [] {
      var init := inputs[..|inputs| - 1];
      InputRowsSum(init);
      var rows := InputRows(inputs);
      assert rows[..|rows| - 1] == InputRows(init);
    }
  }

  /** One more input extends the running total and the rows by that input. */
  lemma InputsPrefixStep(inputs: seq<Input>, i: nat)
    requires i < |inputs|
    ensures TotalInput(inputs[..i + 1]) == TotalInput(inputs[..i]) + InputRowOf(inputs[i]).amount
    ensures InputRows(inputs[..i + 1]) == InputRows(inputs[..i]) + [InputRowOf(inputs[i])]
  {
    assert inputs[..i + 1][..i] == inputs[..i];
  }

  /** One more output extends the running total and the rows by that output. */
  lemma OutputsPrefixStep(outputs: seq<Output>, k: nat)
    requires k < |outputs|
    ensures TotalOutput(outputs[..k + 1]) == TotalOutput(outputs[..k]) + OutputRowOf(outputs[k]).amount
    ensures OutputRows(outputs[..k + 1]) == OutputRows(outputs[..k]) + [OutputRowOf(outputs[k])]
  {
    assert outputs[..k + 1][..k] == outputs[..k];
  }

  /** The body of the input loop of `parseTxDetails`. */
  method ReadInput(input: Input) returns (row: InputRow)
    ensures row == InputRowOf(input)
  {
    var amount := 0;
    var address := "Legacy/Unknown";
    if input.witnessUtxo.Some? {
      amount := input.witnessUtxo.value.amount;
      address := FormatScriptAddress(input.witnessUtxo.value.script);
    } else if input.hasNonWitnessUtxo {
      address := "Legacy Input";
    }
    var txId := "????";
    var vout := 0;
    if input.prevout.Some? {
      txId := TxIdLabel(input.prevout.value.txid);
      vout := input.prevout.value.index;
    }
    row := InputRow(address, amount, txId, vout);
  }

  /** The body of the output loop of `parseTxDetails`, with its inner loop that stops at the
      first derivation path on the change chain. */
  method ReadOutput(output: Output) returns (row: OutputRow)
    ensures row == OutputRowOf(output)
  {
    var address := FormatScriptAddress(output.script.GetOr([]));
    var isChange := false;
    var n := 0;
    while n < |output.derivations|
      invariant 0 <= n <= |output.derivations|
      invariant !isChange
      invariant forall j :: 0 <= j < n ==> !(|output.derivations[j].path| >= 2 && output.derivations[j].path[|output.derivations[j].path| - 2] == 1)
    {
      var path := output.derivations[n].path;
      if |path| >= 2 && path[|path| - 2] == 1 {
        isChange := true;
        break;
      }
      n := n + 1;
    }
    row := OutputRow(address, output.amount, isChange);
  }

  /** The input loop of `parseTxDetails`: the rows and the running total. */
  method ReadInputs(inputs: seq<Input>) returns (rows: seq<InputRow>, total: nat)
    ensures rows == InputRows(inputs) && total == TotalInput(inputs)
  {
    rows, total := [], 0;
    var i := 0;
    while i < |inputs|
      invariant 0 <= i <= |inputs|
      invariant total == TotalInput(inputs[..i])
      invariant rows == InputRows(inputs[..i])
    {
      var row := ReadInput(inputs[i]);
      InputsPrefixStep(inputs, i);
      total := total + row.amount;
      rows := rows + [row];
      i := i + 1;
    }
    assert inputs[..i] == inputs;
  }

  /** The output loop of `parseTxDetails`: the rows and the running total. */
  method ReadOutputs(outputs: seq<Output>) returns (rows: seq<OutputRow>, total: nat)
    ensures rows == OutputRows(outputs) && total == TotalOutput(outputs)
  {
    rows, total := [], 0;
    var k := 0;
    while k < |outputs|
      invariant 0 <= k <= |outputs|
      invariant total == TotalOutput(outputs[..k])
      invariant rows == OutputRows(outputs[..k])
    {
      var row := ReadOutput(outputs[k]);
      OutputsPrefixStep(outputs, k);
      total := total + row.amount;
      rows := rows + [row];
      k := k + 1;
    }
    assert outputs[..k] == outputs;
  }

  /** The summary `parseTxDetails` builds from a parsed transaction: the two loops, then the
      fee, clamped at 0 and left at 0 when no input amount is known. */
  method ReadDetails(tx: Tx) returns (d: TxDetails)
    ensures d == DetailsOf(tx)
  {
    var inputsList, totalInput := ReadInputs(tx.inputs);
    var outputs, totalOutput := ReadOutputs(tx.outputs);
    var fee: int := 0;
    if totalInput > 0 {
      var diff := totalInput as int - totalOutput as int;
      fee := if diff > 0 then diff else 0;
    }
    d := TxDetails(totalOutput, fee, |tx.inputs|, inputsList, outputs);
  }

  /** `parseTxDetails`: one loop over the inputs and one over the outputs, keeping running
      totals, then the fee clamped at 0. None when the text does not parse. */
  method ParseTxDetails(lib: PsbtLib, text: string) returns (r: Option<TxDetails>)
    ensures ParseBase64(lib, text).None? ==> r.None?
    ensures ParseBase64(lib, text).Some? ==> r == Some(DetailsOf(ParseBase64(lib, text).value))
  {
    var parsed := ParseBase64(lib, text);
    if parsed.None? {
      return None;
    }
    var details := ReadDetails(parsed.value);
    r := Some(details);
  }
}
