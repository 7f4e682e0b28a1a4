/** An abstract partially signed Bitcoin transaction (BIP 174): just the fields the client reads
    back from `@scure/btc-signer`. Parsing, serialising and combining are library calls and enter
    as the fields of `PsbtLib`. */
module Psbt {
  import opened Common

  /** One BIP 32 derivation entry: the public key, the master-key fingerprint (a 32-bit number,
      0 when the signer left it unset) and the derivation path. */
  datatype Derivation = Derivation(pubkey: seq<byte>, fingerprint: nat, path: seq<nat>)

  /** A previous output spent by an input (its `witnessUtxo`), or produced by an output. */
  datatype TxOut = TxOut(amount: nat, script: seq<byte>)

  /** The outpoint of the unsigned transaction an input spends. */
  datatype Outpoint = Outpoint(txid: seq<byte>, index: nat)

  /** An input. Absent and empty lists behave alike everywhere the client reads them, so
      `bip32Derivation`, `partialSig` and `tapScriptSig` are plain sequences (of entries, and of
      the public keys the signatures are made with); the scripts stay optional because an empty
      `Uint8Array` is still a present one. */
  datatype Input = Input(
    witnessScript: Option<seq<byte>>,
    redeemScript: Option<seq<byte>>,
    derivations: seq<Derivation>,
    partialSigKeys: seq<seq<byte>>,
    tapScriptSigKeys: seq<seq<byte>>,
    witnessUtxo: Option<TxOut>,
    hasNonWitnessUtxo: bool,
    prevout: Option<Outpoint>)

  datatype Output = Output(amount: nat, script: Option<seq<byte>>, derivations: seq<Derivation>)

  datatype Tx = Tx(inputs: seq<Input>, outputs: seq<Output>)

  /** The library calls: `Transaction.fromPSBT` (None when it throws), `toPSBT`, `combine`
      (None when the two transactions do not match), and the `@scure/base` base64 codec. */
  datatype PsbtLib = PsbtLib(
    fromPsbt: seq<byte> -> Option<Tx>,
    toPsbt: Tx -> seq<byte>,
    combine: (Tx, Tx) -> Option<Tx>,
    base64Decode: string -> Option<seq<byte>>,
    base64Encode: seq<byte> -> string)

  /** The BIP 174 magic: "psbt" followed by 0xff. */
  const Magic: seq<byte> := [0x70, 0x73, 0x62, 0x74, 0xff]

  /** The hexadecimal rendering of the first four magic bytes, the prefix the client looks for. */
  const MagicHex: string := "70736274"

  lemma MagicHexIsHexOfMagic()
    ensures HexEncode(Magic[..4]) == MagicHex
  {
    var head: seq<byte>, tail: seq<byte> := [0x70, 0x73], [0x62, 0x74];
    assert Magic[..4] == head + tail;
    assert head == [0x70] + [0x73] && tail == [0x62] + [0x74];
    HexEncodeByte(0x70);
    HexEncodeByte(0x73);
    HexEncodeByte(0x62);
    HexEncodeByte(0x74);
    HexEncodeAppend([0x70], [0x73]);
    HexEncodeAppend([0x62], [0x74]);
    HexEncodeAppend(head, tail);
  }
}
