/** The checks both the create page and the room page run on a chosen PSBT file before reading
    it as text: the extension, the size, the BIP 174 binary magic and the raw-transaction guard. */
module FileCheck {
  import opened Common
  import opened Psbt
  import PsbtTools

  /** The largest file accepted, 2 MiB. */
  const MaxFileSize: nat := 2 * 1024 * 1024

  datatype FileOutcome = BadExtension | TooLarge | RawTransaction | Accepted(content: string)

  /** The lower-cased name ends in `.psbt`, `.txt`, `.hex` or `.base64`. */
  predicate HasValidExtension(name: string) {
    var lower := Lower(name);
    EndsWith(lower, ".psbt") || EndsWith(lower, ".txt") || EndsWith(lower, ".hex") || EndsWith(lower, ".base64")
  }

  /** The file starts with the five BIP 174 magic bytes `70 73 62 74 ff`. */
  predicate IsBinaryPsbt(bytes: seq<byte>) {
    |bytes| >= 5 && bytes[..5] == Magic
  }

  /** The text a file is read as: two lower-case hex digits per byte for a binary PSBT, otherwise
      its trimmed decoding (`decode` is the browser's `TextDecoder`). */
  function FileContent(bytes: seq<byte>, decode: seq<byte> -> string): string {
    if IsBinaryPsbt(bytes) then HexEncode(bytes) else Trim(decode(bytes))
  }

  /** Text that starts like a serialised version 1 or version 2 transaction. */
  predicate LooksRaw(content: string) {
    StartsWith(content, "010000") || StartsWith(content, "020000")
  }

  /** The checks of `onFileSelected`, in their order. */
  function CheckFile(name: string, bytes: seq<byte>, decode: seq<byte> -> string): (r: FileOutcome)
    ensures !HasValidExtension(name) ==> r == BadExtension
    ensures HasValidExtension(name) && |bytes| > MaxFileSize ==> r == TooLarge
    ensures r.Accepted? ==> HasValidExtension(name) && |bytes| <= MaxFileSize
    ensures r.Accepted? ==> !LooksRaw(r.content) && r.content == FileContent(bytes, decode)
    ensures r == RawTransaction ==> LooksRaw(FileContent(bytes, decode))
    ensures HasValidExtension(name) && |bytes| <= MaxFileSize && !LooksRaw(FileContent(bytes, decode)) ==>
      r == Accepted(FileContent(bytes, decode))
  {
    if !HasValidExtension(name) then BadExtension
    else if |bytes| > MaxFileSize then TooLarge
    else
      var content := FileContent(bytes, decode);
      if LooksRaw(content) then RawTransaction else Accepted(content)
  }

  /** The hex form of a binary PSBT starts with the magic's hex digits `70736274ff`. */
  lemma BinaryContentHead(bytes: seq<byte>)
    requires IsBinaryPsbt(bytes)
    ensures |HexEncode(bytes)| >= 10 && HexEncode(bytes)[..10] == MagicHex + "ff"
  {
    HexEncodeAppend(bytes[..5], bytes[5..]);
    assert bytes[..5] + bytes[5..] == bytes;
    HexEncodeAppend(Magic[..4], [0xff]);
    assert Magic[..4] + [0xff] == Magic;
    MagicHexIsHexOfMagic();
    assert HexEncode([0xff]) == "ff";
  }

  /** A binary PSBT of acceptable name and size is always accepted, as its hex text; that text
      decodes back to the file's bytes. */
  lemma BinaryPsbtAccepted(lib: PsbtLib, name: string, bytes: seq<byte>, decode: seq<byte> -> string)
    requires HasValidExtension(name) && |bytes| <= MaxFileSize && IsBinaryPsbt(bytes)
    ensures CheckFile(name, bytes, decode) == Accepted(HexEncode(bytes))
    ensures PsbtTools.DecodePsbt(lib, HexEncode(bytes)) == Some(bytes)
  {
    BinaryNotRaw(bytes);
    PsbtTools.DecodeHexPsbt(lib, bytes);
  }

  /** The hex text of a binary PSBT starts with '7', so the raw-transaction guard never fires. */
  lemma BinaryNotRaw(bytes: seq<byte>)
    requires IsBinaryPsbt(bytes)
    ensures !LooksRaw(HexEncode(bytes))
  {
    BinaryContentHead(bytes);
    var c := HexEncode(bytes);
    assert c[0] == c[..10][0] == '7';
  }

  /** A text file whose trimmed content starts `0100…` or `0200…` is refused. */
  lemma RawTransactionRefused(name: string, bytes: seq<byte>, decode: seq<byte> -> string)
    requires HasValidExtension(name) && |bytes| <= MaxFileSize && !IsBinaryPsbt(bytes)
    requires LooksRaw(Trim(decode(bytes)))
    ensures CheckFile(name, bytes, decode) == RawTransaction
  {
  }

  /** The extension check ignores letter case. */
  lemma ExtensionIgnoresCase(name: string)
    ensures HasValidExtension(Lower(name)) <==> HasValidExtension(name)
  {
    assert Lower(Lower(name)) == Lower(name);
  }
}
