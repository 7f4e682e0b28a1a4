# SigningRoom in Dafny

SigningRoom is a stateless Bitcoin multisig coordinator. A coordinator uploads a BIP 174
partially signed transaction (PSBT), encrypted in the browser with a key that stays in the
invite link's fragment. A Cloudflare worker holds one room object per room: it admits
WebSocket sessions, relays encrypted partial signatures, keeps an audit log, and tears
everything down when the room expires or is closed. Rooms can be paid for, and enterprise
licenses can be bought, over Lightning. The client merges partial PSBTs and works out who has
signed, then finalizes the transaction.

This project models the core of that system and proves properties of the model.

**The worker** (`apps/worker/src/index.ts`):
- `room_actor.dfy` holds the room object `SigningRoom`:
  - a class whose fields are the room state, its stored copy, the alarm, the session list and an outbox of deliveries;
  - one method per handler, each proved equal to a step function over an `Actor` value;
  - the step functions, which carry the admission, gating, upload, whitelist and teardown properties.
- `licenses.dfy` holds the license store: key → `license:<id>` → record, over a map.
- `sales_counter.dfy` holds the Genesis counter, capped at 21.
- `rate_limit.dfy` holds the per-IP fixed-window limiter.
- `routes.dfy` holds the routes that call these: middleware, room creation, the payment-amount gates, the license purchase, webhook, claim and rotate routes.

**The client:**
- `socket_client.dfy`: the socket service (`socket.service.ts`), as a class over the service's fields. `Step` is its message reducer.
- `psbt_tools.dfy`: the service's PSBT helpers. These are decoding and normalizing, merging, threshold, key comparison, signer extraction (a loop over inputs and derivations proved against a grouping specification), fingerprints, address formatting and transaction details.
- `create_page.dfy`: the creation page's analysis loops and predicates, and the tier choice at launch.
- `room_page.dfy`: the room page's finalize predicates, countdown, key entry and finalize gate.
- `file_check.dfy`: the file validation both pages share.
- `encryption.dfy`: the IV ‖ ciphertext framing and the byte ↔ binary-string loops of the encryption service.
- `psbt.dfy`: an abstract PSBT datatype.
- `common.dfy`: Option/Result and string and hex helpers.

**Inputs and foreign calls.** Library and platform calls are fields of two records that every operation takes as a parameter:
- `Encryption.Primitives`: AES-GCM seal and open, `btoa`/`atob`, UTF-8 encoding.
- `Psbt.PsbtLib`: `Transaction.fromPSBT`, `toPSBT`, `combine`, and the base64 codec of `@scure/base`.

What the proofs need of these calls is stated as predicates, written into the requires of the lemmas that use them (`Encryption.Sound`: ideal AEAD, a base64 codec in the sense of section 4 of RFC 4648, and a UTF-8 round trip).

The following are also parameters: the clock (`now`), the random UUIDs and session ids, the IV, the LNbits payment lookups, and the browser's saved license and admin token.

WebSockets are natural-number ids. A handler's effect on them is the list of `Send`/`Close` deliveries it appends to the outbox.

## Model

| member | source | states |
|---|---|---|
| Common.OrDefault | apps/worker/src/index.ts:54 | `x || d` on text: a present non-empty value is kept, a missing or empty one gives the default |
| Common.Trim | apps/client/src/app/services/socket/socket.service.ts:543 | `trim()`: the result neither starts nor ends with whitespace |
| Common.TrimUntrimmable | apps/client/src/app/services/socket/socket.service.ts:543 | `trim()` leaves text that already starts and ends with non-whitespace unchanged |
| Common.RemoveSpacesFacts | apps/client/src/app/pages/create/create.component.ts:949-951 | `replace(/\s/g, '')`: no whitespace is left, nothing grows, and text without whitespace is unchanged |
| Common.RemoveSpacesChar | apps/client/src/app/pages/create/create.component.ts:949-951 | a single character is dropped exactly when it is whitespace and kept otherwise |
| Common.RemoveSpacesAppend | apps/client/src/app/pages/create/create.component.ts:949-951 | stripping distributes over concatenation, so the non-whitespace characters are kept in their order |
| Common.Lower | apps/client/src/app/pages/create/create.component.ts:954 | `toLowerCase()` keeps the length and lowers character by character |
| Common.HexEncodeChars | apps/client/src/app/pages/create/create.component.ts:797 | two lower-case hex digits per byte, high nibble first |
| Common.HexDecode | apps/client/src/app/services/socket/socket.service.ts:539 | the hex codec decodes exactly the even-length all-hex texts, to half as many bytes |
| Common.HexRoundTrip | apps/client/src/app/services/socket/socket.service.ts:545 | hex decoding inverts hex encoding |
| Common.NatToHex | apps/client/src/app/pages/create/create.component.ts:838 | `toString(16)` yields at least one hex digit |
| Common.NatToHexDenotes | apps/client/src/app/pages/create/create.component.ts:838 | the lower-case digits of `toString(16)` read back as the number and start with `0` only for zero |
| Common.NatToHexLength | apps/client/src/app/pages/create/create.component.ts:838 | below 16^k, `toString(16)` has at most `k` digits |
| Common.NatToHexInjective | apps/client/src/app/pages/create/create.component.ts:838 | different numbers give different hex texts |
| Common.PadStart | apps/client/src/app/pages/room/room.component.ts:1575 | `padStart(w, c)` keeps the text as its suffix and fills only with `c` up to width `w` |
| Common.SecondField | apps/client/src/app/pages/room/room.component.ts:1255 | `split('#')[1]` exists exactly when the text holds a `#`, and is the text from just after the first `#` up to the next `#` or the end |
| Common.FieldAtUnique | apps/client/src/app/pages/room/room.component.ts:1255 | the field that starts at a given position and ends at the next separator or the end is unique |
| Encryption.BinaryOf | apps/client/src/app/services/encryption/encryption.service.ts:116-122 | the binary string has one character per byte, character i having code `bytes[i]` |
| Encryption.BytesOf | apps/client/src/app/services/encryption/encryption.service.ts:126-133 | byte i is the code of character i, truncated to 8 bits as `Uint8Array` stores it |
| Encryption.BinaryRoundTrip | apps/client/src/app/services/encryption/encryption.service.ts:116-134 | bytes to binary string and back is the identity |
| Encryption.BinaryRoundTripInverse | apps/client/src/app/services/encryption/encryption.service.ts:116-134 | a binary string to bytes and back is the identity |
| Encryption.Buf2Base64 | apps/client/src/app/services/encryption/encryption.service.ts:116-124 | the loop hands `btoa` exactly the binary string of the buffer |
| Encryption.Base642Buf | apps/client/src/app/services/encryption/encryption.service.ts:126-134 | a fresh array holding the bytes of `atob`'s output, or failure when `atob` throws |
| Encryption.RawKey | apps/client/src/app/services/encryption/encryption.service.ts:46-54 | an imported key has 16, 24 or 32 bytes; key text `atob` rejects is an invalid-base64 error |
| Encryption.Frame | apps/client/src/app/services/encryption/encryption.service.ts:65-67 | the payload is the IV followed by the ciphertext, of the summed length |
| Encryption.Unframe | apps/client/src/app/services/encryption/encryption.service.ts:94-97 | the split at byte 12 concatenates back to the input; a shorter buffer is all IV |
| Encryption.UnframeFrame | apps/client/src/app/services/encryption/encryption.service.ts:65-97 | splitting a framed payload recovers the 12-byte IV and the ciphertext |
| Encryption.Encrypt | apps/client/src/app/services/encryption/encryption.service.ts:43-74 | computes the encryption specification, failures included |
| Encryption.Decrypt | apps/client/src/app/services/encryption/encryption.service.ts:82-110 | computes the decryption specification, failures included |
| Encryption.GenerateKey | apps/client/src/app/services/encryption/encryption.service.ts:24-35 | 256 bits of key material encode to a key that imports back to exactly those 32 bytes |
| Encryption.EncryptFraming | apps/client/src/app/services/encryption/encryption.service.ts:56-69 | an encrypted payload decodes to the 12-byte IV followed by the AES-GCM output, 12 + \|ct\| bytes in all |
| Encryption.RoundTrip | apps/client/src/app/services/encryption/encryption.service.spec.ts:23-32 | decrypting an encryption under the same key gives the plaintext back (ideal AEAD, base64 and UTF-8 codecs) |
| Encryption.WrongKeyFails | apps/client/src/app/services/encryption/encryption.service.spec.ts:34-40 | decrypting under a different key of the same length fails with a tag error |
| Encryption.KeyErrorsPropagate | apps/client/src/app/services/encryption/encryption.service.ts:106-109 | a key that cannot be imported makes both encrypt and decrypt fail with that error |
| Psbt.MagicHexIsHexOfMagic | apps/client/src/app/services/socket/socket.service.ts:545 | `70736274` is the hex of the first four BIP 174 magic bytes |
| PsbtTools.DecodePsbt | apps/client/src/app/services/socket/socket.service.ts:537-540 | whitespace-free hex text is decoded as hex, anything else as base64 |
| PsbtTools.DecodeHexPsbt | apps/client/src/app/services/socket/socket.service.ts:537-540 | the hex rendering of any non-empty byte string decodes back to it |
| PsbtTools.NormalizePsbt | apps/client/src/app/services/socket/socket.service.ts:542-548 | text that is not magic-prefixed hex comes back trimmed |
| PsbtTools.HexOfPsbtStartsWithMagic | apps/client/src/app/services/socket/socket.service.ts:545 | the hex of bytes beginning with the magic passes the lower-cased prefix test |
| PsbtTools.HexOfPsbtHead | apps/client/src/app/services/socket/socket.service.ts:545 | the hex of bytes beginning with the magic starts with `70736274` |
| PsbtTools.LowerKeepsMagic | apps/client/src/app/services/socket/socket.service.ts:545 | lower-casing keeps the magic prefix |
| PsbtTools.NormalizeHexPsbt | apps/client/src/app/services/socket/socket.service.ts:542-548 | a PSBT given as hex is re-encoded as base64 of the same bytes |
| PsbtTools.NormalizeKeepsBase64 | apps/client/src/app/services/socket/socket.service.ts:542-548 | trimmed text that is not hex passes through unchanged |
| PsbtTools.MergePsbts | apps/client/src/app/services/socket/socket.service.ts:286-298 | the base comes back unchanged when either side fails to decode |
| PsbtTools.MergeOutcome | apps/client/src/app/services/socket/socket.service.ts:286-298 | the merge is the re-encoded combination when decoding, parsing and combining all succeed, and the base otherwise |
| PsbtTools.MergeAllUndecodable | apps/client/src/app/services/socket/socket.service.ts:510-513 | folding merges over partials that do not decode leaves the master PSBT as it was |
| PsbtTools.GetThreshold | apps/client/src/app/services/socket/socket.service.ts:300-314 | at most 16; positive only for a parsed PSBT whose spend script leads with opcode 0x50 + m; conversely a leading opcode 0x51..0x60 gives exactly that opcode minus 0x50; 0 on parse failure |
| PsbtTools.ThresholdOfMultisig | apps/client/src/app/services/socket/socket.service.ts:300-314 | an m-of-n `OP_m … OP_n OP_CHECKMULTISIG` script (BIP 11) gives threshold m |
| PsbtTools.ThresholdZeroCases | apps/client/src/app/services/socket/socket.service.ts:300-314 | a parse failure, no inputs, or a missing or empty script gives 0 |
| PsbtTools.AreKeysEqual | apps/client/src/app/services/socket/socket.service.ts:678-684 | keys are equal exactly when their x-parts are (33-byte SEC1: bytes 1..; 65-byte: bytes 1..33; otherwise the whole key) |
| PsbtTools.KeyEqualityIsEquivalence | apps/client/src/app/services/socket/socket.service.ts:678-684 | key equality is reflexive, symmetric and transitive |
| PsbtTools.KeyEncodingsMatch | apps/client/src/app/services/socket/socket.service.ts:678-684 | a compressed key, its x-only form and the matching uncompressed key all compare equal |
| PsbtTools.XOnlyKeysCompareExactly | apps/client/src/app/services/socket/socket.service.ts:678-684 | two 32-byte (BIP 340) keys are equal only when identical |
| PsbtTools.FingerprintHex | apps/client/src/app/services/socket/socket.service.ts:634 | a fingerprint renders as at least 8 hex digits |
| PsbtTools.FingerprintHexDenotes | apps/client/src/app/services/socket/socket.service.ts:634 | the zero-padded text reads back as the fingerprint, and a 32-bit fingerprint gives exactly 8 digits |
| PsbtTools.PadStartKeepsNumber | apps/client/src/app/services/socket/socket.service.ts:634 | `padStart(8, '0')` on hex digits keeps them hex digits and keeps their number |
| PsbtTools.FingerprintHexInjective | apps/client/src/app/services/socket/socket.service.ts:634 | different fingerprints render differently, so signers are told apart |
| PsbtTools.Find | apps/client/src/app/services/socket/socket.service.ts:646-647 | the fingerprint map's lookup finds an entry exactly when one has that fingerprint |
| PsbtTools.UpsertKeepsDistinct | apps/client/src/app/services/socket/socket.service.ts:646-648 | `signersMap.set` keeps one entry per fingerprint and adds only the one observed |
| PsbtTools.GroupDistinct | apps/client/src/app/services/socket/socket.service.ts:619-652 | one entry per distinct fingerprint, and exactly the fingerprints observed |
| PsbtTools.GroupSigned | apps/client/src/app/services/socket/socket.service.ts:619-652 | an entry is signed exactly when some derivation of that fingerprint, in any input, has a matching signature |
| PsbtTools.GroupOrder | apps/client/src/app/services/socket/socket.service.ts:651 | the entries come in first-seen order |
| PsbtTools.CountSigned | apps/client/src/app/services/socket/socket.service.ts:111-113 | `signerCount` never exceeds the number of signers |
| PsbtTools.ReadyIffAllCounted | apps/client/src/app/services/socket/socket.service.ts:111-118 | ready to broadcast exactly when there are signers and all of them are signed |
| PsbtTools.ReadyMeansEveryFingerprintSigned | apps/client/src/app/services/socket/socket.service.ts:115-118 | ready exactly when something was observed and every observed fingerprint is signed somewhere |
| PsbtTools.ObserveDerivation | apps/client/src/app/services/socket/socket.service.ts:630-648 | one derivation entry updates the map as the observation fold says |
| PsbtTools.ObserveInput | apps/client/src/app/services/socket/socket.service.ts:624-649 | one input's derivations update the map as the observation fold says |
| PsbtTools.ExtractSigners | apps/client/src/app/services/socket/socket.service.ts:619-652 | the loops compute the grouped signer list (empty on a parse failure) |
| PsbtTools.InputFingerprint | apps/client/src/app/services/socket/socket.service.ts:658-665 | the first set fingerprint among an input's derivations |
| PsbtTools.GetFingerprintFromPsbt | apps/client/src/app/services/socket/socket.service.ts:654-668 | the first set fingerprint of the PSBT, or none on failure |
| PsbtTools.FirstObservationLeadsGroup | apps/client/src/app/services/socket/socket.service.ts:619-668 | the first fingerprint observed heads the signer list |
| PsbtTools.FormatSegwitScript | apps/client/src/app/services/socket/socket.service.ts:670-676 | P2WPKH and P2WSH scripts render as `bc1q` + program hex, P2TR as `bc1p` + program hex |
| PsbtTools.InputRows | apps/client/src/app/services/socket/socket.service.ts:558-583 | one row per input |
| PsbtTools.OutputRows | apps/client/src/app/services/socket/socket.service.ts:585-602 | one row per output |
| PsbtTools.DetailsFeeClamped | apps/client/src/app/services/socket/socket.service.ts:604 | the fee is the input surplus over outputs, or 0 when there is none; never above the input total |
| PsbtTools.DetailsRowsAddUp | apps/client/src/app/services/socket/socket.service.ts:550-617 | the amount is the sum of the output rows, the input count is the list length, and input rows sum to the input total |
| PsbtTools.OutputRowsSum | apps/client/src/app/services/socket/socket.service.ts:585-602 | output rows sum to the output total |
| PsbtTools.InputRowsSum | apps/client/src/app/services/socket/socket.service.ts:558-583 | input rows sum to the witness-UTXO input total |
| PsbtTools.ReadInput | apps/client/src/app/services/socket/socket.service.ts:559-582 | one input's row: amount, address, truncated txid and vout |
| PsbtTools.ReadOutput | apps/client/src/app/services/socket/socket.service.ts:586-601 | one output's row: amount, address and change flag |
| PsbtTools.ParseTxDetails | apps/client/src/app/services/socket/socket.service.ts:550-617 | the details of a parsed PSBT, or none on a parse failure |
| PsbtTools.ReadDetails | apps/client/src/app/services/socket/socket.service.ts:558-603 | the input and output loops compute the details specification: the rows, both totals and the fee |
| FileCheck.CheckFile | apps/client/src/app/pages/create/create.component.ts:766-813 | a bad extension or a file over 2 MiB is refused first; content that looks like a raw transaction is refused; any other well-named, small file is accepted with its content (hex for a binary PSBT, trimmed text otherwise) |
| FileCheck.BinaryContentHead | apps/client/src/app/pages/create/create.component.ts:794-797 | a binary PSBT's hex rendering starts `70736274ff` |
| FileCheck.BinaryPsbtAccepted | apps/client/src/app/pages/create/create.component.ts:766-813 | a well-named binary PSBT of allowed size is accepted as its hex, which decodes back to the file's bytes |
| FileCheck.BinaryNotRaw | apps/client/src/app/pages/create/create.component.ts:799 | the hex of a binary PSBT never passes for a raw transaction |
| FileCheck.RawTransactionRefused | apps/client/src/app/pages/create/create.component.ts:799-802 | text starting `010000` or `020000` is refused as a raw transaction |
| FileCheck.ExtensionIgnoresCase | apps/client/src/app/pages/create/create.component.ts:771-773 | the extension test ignores case |
| CreatePage.NetworkOf | apps/client/src/app/pages/create/create.component.ts:863 | a positive score is testnet, a negative one bitcoin, zero unknown |
| CreatePage.DustVoidsAnalysis | apps/client/src/app/pages/create/create.component.ts:850-860 | any output below 546 sats voids the analysis |
| CreatePage.ShortInputNotAnalysed | apps/client/src/app/pages/create/create.component.ts:816-819 | input shorter than 10 characters gives no analysis |
| CreatePage.DerivationFingerprintsMembers | apps/client/src/app/pages/create/create.component.ts:837 | a fingerprint is collected exactly when a derivation has it non-zero |
| CreatePage.InputFingerprintsMembers | apps/client/src/app/pages/create/create.component.ts:831-848 | the fingerprint set is the union over all inputs |
| CreatePage.SignerCountOfSummary | apps/client/src/app/pages/create/create.component.ts:867 | signer count is the number of distinct fingerprints, or 1 when there are none |
| CreatePage.UnanimousDerivations | apps/client/src/app/pages/create/create.component.ts:840-845 | derivations all on coin 0' (or 1') score minus (or plus) their number |
| CreatePage.UnanimousScore | apps/client/src/app/pages/create/create.component.ts:831-848 | the same over all inputs |
| CreatePage.UnanimousNetwork | apps/client/src/app/pages/create/create.component.ts:863 | a PSBT whose paths all use coin 0' is bitcoin, all 1' testnet (BIP 44 hardened coin types) |
| CreatePage.FeeIsNotClamped | apps/client/src/app/pages/create/create.component.ts:862 | the fee is inputs minus outputs when inputs are positive (negative when outputs exceed them), else 0; never a high fee then |
| CreatePage.SignerLimitCases | apps/client/src/app/pages/create/create.component.ts:908-917 | the limit trips only on free tier, no enterprise key, and more than 3 signers |
| CreatePage.FiveSignersOnFreeExceed | apps/client/src/app/pages/create/create.component.spec.ts:60-76 | 5 signers on the free tier with no key exceed the limit |
| CreatePage.NetworkMismatchCases | apps/client/src/app/pages/create/create.component.ts:923-931 | no mismatch without analysis, for unknown or equal networks, or testnet vs signet; bitcoin vs testnet mismatches |
| CreatePage.HighFeeCases | apps/client/src/app/pages/create/create.component.ts:933-947 | no fee is never high; above 100 sat/vB of the estimate, or above 5% of the outputs, is high |
| CreatePage.BinaryHexIsPsbtHex | apps/client/src/app/pages/create/create.component.ts:953-955 | the hex of a binary PSBT passes `isHex` and decodes back to the file bytes |
| CreatePage.LaunchTierCases | apps/client/src/app/pages/create/create.component.ts:655-657 | a license is sent only for one-off with a key longer than 5; tier is free exactly for the free choice |
| CreatePage.LaunchedPsbtDecrypts | apps/client/src/app/pages/create/create.component.ts:642-686 | the encrypted PSBT in the request decrypts under the room key to the whitespace-free input, with the chosen network |
| CreatePage.CreatePage.constructor | apps/client/src/app/pages/create/create.component.ts:608-616 | starts on free, bitcoin, no file, no analysis, and the saved license key when one exists |
| CreatePage.CreatePage.ScanDerivations | apps/client/src/app/pages/create/create.component.ts:836-846 | the inner loop collects the derivation fingerprints and score |
| CreatePage.CreatePage.ScanInputs | apps/client/src/app/pages/create/create.component.ts:831-848 | the input loop computes total input, fingerprint set and network score |
| CreatePage.CreatePage.ScanOutputs | apps/client/src/app/pages/create/create.component.ts:850-860 | the output loop stops at dust, and otherwise totals the outputs |
| CreatePage.CreatePage.AnalyzeRawHex | apps/client/src/app/pages/create/create.component.ts:815-878 | sets the analysis to the analysis specification and nothing else |
| CreatePage.CreatePage.AnalyzeTx | apps/client/src/app/pages/create/create.component.ts:831-869 | any output below the dust limit voids the analysis; otherwise it is the summary of the transaction |
| CreatePage.CreatePage.OnFileSelected | apps/client/src/app/pages/create/create.component.ts:766-813 | refused files change nothing; raw transactions only mark a file chosen; accepted content is stored and analysed |
| CreatePage.CreatePage.LaunchRoom | apps/client/src/app/pages/create/create.component.ts:642-686 | the request follows the launch specification, none without data |
| RoomPage.RequiredSignatures | apps/client/src/app/pages/room/room.component.ts:954-957 | at most 16, and 0 without a PSBT |
| RoomPage.RequiredSignaturesOfMultisig | apps/client/src/app/pages/room/room.component.ts:954-957 | a room whose PSBT spends an m-of-n multisig script requires exactly m signatures |
| RoomPage.CanFinalizeCases | apps/client/src/app/pages/room/room.component.ts:959-965 | finalizing needs a parsed PSBT and at least one upload; an unparsable PSBT never finalizes |
| RoomPage.TwoUploadsReachTwoOfN | apps/client/src/app/pages/room/room.component.spec.ts:71-79 | two stored uploads meet a threshold of 2, even when identical |
| RoomPage.SignerLabel | apps/client/src/app/pages/room/room.component.ts:971-975 | "name (fp)" when a non-empty label exists, otherwise the fingerprint |
| RoomPage.CountdownDecomposes | apps/client/src/app/pages/room/room.component.ts:1572-1574 | hours, minutes and seconds recompose the remaining time to within a second, with minutes and seconds below 60 |
| RoomPage.CountdownFieldsPadded | apps/client/src/app/pages/room/room.component.ts:1575 | each field has at least two digits, a leading zero below 10 |
| RoomPage.KeyFromInput | apps/client/src/app/pages/room/room.component.ts:1253-1255 | no key for empty input; after a `#` the key has no `#`; without one it is the trimmed text |
| RoomPage.KeyAfterFirstHash | apps/client/src/app/pages/room/room.component.ts:1253-1255 | with a `#` in the trimmed entry, the key is its segment between the first `#` and the next `#` (or the end) |
| RoomPage.InviteLinkYieldsKey | apps/client/src/app/pages/room/room.component.ts:1252-1259 | pasting an invite link `link#key` yields the key |
| RoomPage.UnverifiedCount | apps/client/src/app/pages/room/room.component.ts:1159 | never more than the number of outputs |
| RoomPage.UnverifiedCountZero | apps/client/src/app/pages/room/room.component.ts:1157-1160 | no unverified outputs exactly when every output address is whitelisted |
| RoomPage.FinalizeGate | apps/client/src/app/pages/room/room.component.ts:1144-1172 | expired does nothing; enterprise with a whitelist proceeds exactly when all outputs are whitelisted; otherwise proceeds |
| RoomPage.RoomView.constructor | apps/client/src/app/pages/room/room.component.ts:842-875 | timer at `Loading` (shown as "Loading..."), not expired, no key entered, no final hex |
| RoomPage.TimerString | apps/client/src/app/pages/room/room.component.ts:1566-1577 | the timer shows "Loading..." before the first tick and all zeros once the time is up |
| RoomPage.RoomView.StartTimer | apps/client/src/app/pages/room/room.component.ts:1559-1562 | the interval runs toward the given expiry, which is stored; nothing else changes |
| RoomPage.RoomView.Tick | apps/client/src/app/pages/room/room.component.ts:1562-1580 | counts toward the expiry `StartTimer` stored: the timer holds the time left (shown as zeros once it is up); past expiry: expires, stops and disconnects clearing state; before: low time under 2 minutes; a stopped timer changes nothing |
| RoomPage.RoomView.SubmitKey | apps/client/src/app/pages/room/room.component.ts:1252-1259 | empty input does nothing; otherwise reconnects with the extracted key and clears the input |
| RoomPage.RoomView.DoFinalize | apps/client/src/app/pages/room/room.component.ts:1148-1155 | stores the final hex and logs the action when extraction succeeds |
| RoomPage.RoomView.Finalize | apps/client/src/app/pages/room/room.component.ts:1144-1172 | follows the finalize gate: skip, ask for confirmation with the unverified count, or finalize, storing the hex and sending the `Tx Finalized` log when extraction succeeds on an open socket |
| RoomPage.RoomView.ConfirmFinalize | apps/client/src/app/pages/room/room.component.ts:1161-1166 | confirming a pending warning dismisses it, stores the hex and sends the `Tx Finalized` log when extraction succeeds on an open socket; with no warning nothing changes |
| RoomPage.RoomView.OnFileSelected | apps/client/src/app/pages/room/room.component.ts:989-1035 | only accepted files are uploaded, as the upload frame of their content |
| SocketClient.InitialState | apps/client/src/app/services/socket/socket.service.ts:420-427 | empty PSBT and signatures, free and paid, expiring 20 minutes from now |
| SocketClient.MissingKeyOnlyFlags | apps/client/src/app/services/socket/socket.service.ts:430-433 | without a key, a message needing one only sets the decryption error |
| SocketClient.DeltaReplacesOneField | apps/client/src/app/services/socket/socket.service.ts:443-474 | each delta message replaces just its field, and nothing without a state |
| SocketClient.TerminalMessagesDisconnect | apps/client/src/app/services/socket/socket.service.ts:458-482 | room closed, locked and not found set their flag and disconnect, keeping key and role |
| SocketClient.AdminOnlyByRoleUpdate | apps/client/src/app/services/socket/socket.service.ts:455-457 | a guest becomes admin only through `ROLE_UPDATE` with role admin |
| SocketClient.SyncFailureChangesNothing | apps/client/src/app/services/socket/socket.service.ts:484-486 | a sync whose decryption throws changes nothing |
| SocketClient.SyncSetsState | apps/client/src/app/services/socket/socket.service.ts:489-521 | the state holds the decrypted history, the PSBT folded from the master over it, and the message's fields |
| SocketClient.NewPartialAppends | apps/client/src/app/services/socket/socket.service.ts:523-535 | exactly one decrypted entry is appended and merged; only PSBT, signatures and log change |
| SocketClient.EmptyPartialIgnored | apps/client/src/app/services/socket/socket.service.ts:524 | a partial without encrypted data changes nothing |
| SocketClient.UploadEntry | apps/client/src/app/services/socket/socket.service.ts:501-503 | an uploaded entry decrypts to its normalized plaintext |
| SocketClient.HistoryOfUploads | apps/client/src/app/services/socket/socket.service.ts:498-508 | a history of uploads decrypts entry by entry, in order |
| SocketClient.ClosePolicy | apps/client/src/app/services/socket/socket.service.ts:171-186 | close 4001 marks the room full with no reconnect; other codes reconnect unless closed |
| SocketClient.UploadDecryptsToMerged | apps/client/src/app/services/socket/socket.service.ts:209-229 | the upload carries the detected fingerprint and decrypts to the merged PSBT, or the partial when there is none |
| SocketClient.LabelRequestsSound | apps/client/src/app/services/socket/socket.service.ts:383-397 | every label request names a listed unlabelled signer and its saved name |
| SocketClient.LabelRequestsComplete | apps/client/src/app/services/socket/socket.service.ts:383-397 | every listed unlabelled signer with a saved name gets a request |
| SocketClient.SocketService.constructor | apps/client/src/app/services/socket/socket.service.ts:78-98 | disconnected guest, no key, no state, no flags raised |
| SocketClient.SocketService.SignerCount | apps/client/src/app/services/socket/socket.service.ts:111-113 | the signed count never exceeds the signers |
| SocketClient.SocketService.Reset | apps/client/src/app/services/socket/socket.service.ts:409-418 | clears the state, key, role and flags |
| SocketClient.SocketService.Disconnect | apps/client/src/app/services/socket/socket.service.ts:194-202 | drops the socket; resets when asked to clear |
| SocketClient.SocketService.Connect | apps/client/src/app/services/socket/socket.service.ts:140-155 | resets, keeps the key, shows the initial state, connecting |
| SocketClient.SocketService.Send | apps/client/src/app/services/socket/socket.service.ts:403-407 | sends only on an open socket |
| SocketClient.SocketService.OnOpen | apps/client/src/app/services/socket/socket.service.ts:157-167 | connected; sends the saved license and the admin token when present |
| SocketClient.SocketService.OnError | apps/client/src/app/services/socket/socket.service.ts:188-191 | status becomes error |
| SocketClient.SocketService.OnClose | apps/client/src/app/services/socket/socket.service.ts:171-186 | follows the close policy |
| SocketClient.SocketService.DecryptEntry | apps/client/src/app/services/socket/socket.service.ts:500-506 | decrypts one history entry as the history specification says |
| SocketClient.SocketService.DecryptHistory | apps/client/src/app/services/socket/socket.service.ts:498-508 | the loop decrypts the whole history as specified, stopping at the first failure |
| SocketClient.SocketService.SyncState | apps/client/src/app/services/socket/socket.service.ts:489-521 | computes the sync outcome |
| SocketClient.SocketService.MergeHistory | apps/client/src/app/services/socket/socket.service.ts:510-513 | the loop folds the history into the master with `mergePsbts`, oldest first |
| SocketClient.SocketService.HandleStateSync | apps/client/src/app/services/socket/socket.service.ts:489-521 | applies the sync step |
| SocketClient.SocketService.HandleNewPartial | apps/client/src/app/services/socket/socket.service.ts:523-535 | applies the partial step |
| SocketClient.SocketService.HandleMessage | apps/client/src/app/services/socket/socket.service.ts:429-487 | the new view is the reducer's step |
| SocketClient.StepOfSimple | apps/client/src/app/services/socket/socket.service.ts:429-487 | role, terminal and field messages are handled with or without a key |
| SocketClient.SocketService.HandleTerminal | apps/client/src/app/services/socket/socket.service.ts:458-482 | room closed, locked and not found: the reducer's step, nothing sent |
| SocketClient.SocketService.HandleUpdate | apps/client/src/app/services/socket/socket.service.ts:443-474 | role and field messages: the reducer's step, nothing sent |
| SocketClient.SocketService.UploadSignature | apps/client/src/app/services/socket/socket.service.ts:209-229 | sends the upload frame when a key exists and the socket is open |
| SocketClient.SocketService.CheckAndApplyLocalLabels | apps/client/src/app/services/socket/socket.service.ts:383-397 | an admin with a state sends exactly the label requests |
| SocketClient.SocketService.SendLabelRequests | apps/client/src/app/services/socket/socket.service.ts:390-396 | one label request per unlabelled signer with a saved name, only on an open socket; the view is unchanged |
| Licenses.Validate | apps/worker/src/index.ts:64-78 | no reference means none; a returned license is the record behind the reference and not yet expired |
| Licenses.ValidateExpiry | apps/worker/src/index.ts:73-77 | a present record is returned until its expiry second and not after |
| Licenses.NewLicense | apps/worker/src/index.ts:45-56 | genesis expires at 253402300799, annual one year after now in seconds |
| Licenses.KeyIsNotRef | apps/worker/src/index.ts:43-59 | an API key never collides with a `license:` reference |
| Licenses.CreatedKeyValidates | apps/worker/src/index.ts:41-78 | a created key validates to its record until expiry; nothing else in the namespace changes |
| Licenses.RotateMovesValidity | apps/worker/src/index.ts:80-98 | after rotation the old key resolves to nothing and a fresh new key validates exactly when the old one did, to the record with the new active key |
| Licenses.RotateUnknownKey | apps/worker/src/index.ts:81-82 | an unknown key is refused as invalid |
| Licenses.LicenseStore.constructor | apps/worker/src/index.ts:26 | the namespace starts as given |
| Licenses.LicenseStore.Put | apps/worker/src/index.ts:58-59 | a KV put overwrites one key |
| Licenses.LicenseStore.Delete | apps/worker/src/index.ts:95 | a KV delete removes one key |
| Licenses.LicenseStore.Create | apps/worker/src/index.ts:41-62 | writes the record, then the key's reference; returns the key and expiry |
| Licenses.LicenseStore.Rotate | apps/worker/src/index.ts:80-98 | errors write nothing; success writes as the rotation specification says |
| SalesCounter.ConfirmStep | apps/worker/src/index.ts:693-699 | below 21 the count increments; at 21 or more it is sold out and unchanged |
| SalesCounter.ConfirmRunNeverOversells | apps/worker/src/index.ts:693-699 | any run of confirms ends at min(sold + n, 21) with exactly that many successes |
| SalesCounter.Counter.constructor | apps/worker/src/index.ts:685 | a missing count reads as 0 |
| SalesCounter.Counter.Fetch | apps/worker/src/index.ts:682-701 | stock reports 21 − sold; reserve never writes; confirm is one confirm step; other paths are not found |
| RateLimit.Check | apps/worker/src/index.ts:106-122 | other IPs untouched; a missing or expired window restarts at 1 and allows; otherwise counts and allows below 20 prior requests |
| RateLimit.WindowCap | apps/worker/src/index.ts:106-122 | within one 60-second window from a fresh start, the count is the number of requests and at most 20 are allowed |
| RateLimit.RateLimiter.constructor | apps/worker/src/index.ts:104 | starts with no windows |
| RateLimit.RateLimiter.CheckRateLimit | apps/worker/src/index.ts:106-122 | updates the windows as the check says |
| RoomActor.IndexOfSocket | apps/worker/src/index.ts:566 | finds the first session of a socket, or reports none has it |
| RoomActor.SetSession | apps/worker/src/index.ts:558 | `Map.set`: keeps sockets unique, replaces in place or appends, and registers the entry |
| RoomActor.FirstIndex | apps/worker/src/index.ts:566 | the lookup finds the first session with that socket |
| RoomActor.RemoveSession | apps/worker/src/index.ts:654 | `Map.delete`: exactly the other sessions remain |
| RoomActor.BroadcastReachesAll | apps/worker/src/index.ts:660-665 | one send of the frame to every session, in order |
| RoomActor.CloseAllClosesAll | apps/worker/src/index.ts:631 | one close with the code and reason to every session, in order |
| RoomActor.Logged | apps/worker/src/index.ts:463 | appends one entry and changes nothing else |
| RoomActor.LogActor | apps/worker/src/index.ts:460-465 | a no-op without a room; otherwise appends and stores |
| RoomActor.Store | apps/worker/src/index.ts:464 | the stored copy equals the room |
| RoomActor.Limit | apps/worker/src/index.ts:540-541 | 10 sessions, 40 for paid enterprise, 5 for unpaid enterprise |
| RoomActor.WithoutFilters | apps/worker/src/index.ts:636 | `filter(a => a !== x)`: every occurrence goes, everything else stays, no duplicates appear |
| RoomActor.InitStep | apps/worker/src/index.ts:472-501 | the room is stored, or nothing changes when `/init` throws |
| RoomActor.InitFacts | apps/worker/src/index.ts:472-501 | ttl is 1 day for enterprise (after license promotion) else 20 minutes; alarm at expiry; unpaid only for unlicensed enterprise; no signatures; one creation log entry |
| RoomActor.InitMalformedLicense | apps/worker/src/index.ts:479-481 | a license lookup that throws leaves `/init` without effect |
| RoomActor.UnlockStep | apps/worker/src/index.ts:503-509 | 404 without a room; otherwise paid and stored |
| RoomActor.ExtendStep | apps/worker/src/index.ts:511-523 | 404 without a room, and the room stays stored |
| RoomActor.ExtendNeverShortens | apps/worker/src/index.ts:511-523 | expiry becomes max(now, old) + 1 day, the alarm follows it, and it is broadcast |
| RoomActor.SyncFrame | apps/worker/src/index.ts:561 | corrected frame (see "## Findings"): the room without its admin token, and the connection count; the code as written sends the token too (`RoomActor.SyncFrameAsWritten`) |
| RoomActor.AdmitStep | apps/worker/src/index.ts:532-561 | keeps the room stored and sockets unique |
| RoomActor.AdmissionOrder | apps/worker/src/index.ts:532-561 | not found closes 4004, full closes 4001, locked closes 1000; only then a guest is registered, logged, counted and synced |
| RoomActor.FullBeforeLocked | apps/worker/src/index.ts:543-553 | a full locked room answers "Room Full" |
| RoomActor.AdmissionWithinLimit | apps/worker/src/index.ts:540-558 | admission never takes sessions over the limit |
| RoomActor.LeaveStep | apps/worker/src/index.ts:652-657 | the socket is unregistered; the room stays stored and sockets unique |
| RoomActor.AlarmStep | apps/worker/src/index.ts:667-671 | the room and storage are cleared and every session is closed "Expired" |
| RoomActor.MessagesKeepInvariants | apps/worker/src/index.ts:563-649 | every message keeps the room stored and sockets unique |
| RoomActor.GuestsCannotAdminister | apps/worker/src/index.ts:592-647 | label, rename, whitelist, lock and close change nothing for non-admins |
| RoomActor.RenameNeedsEnterprise | apps/worker/src/index.ts:600 | rename changes nothing outside enterprise |
| RoomActor.AuthIffToken | apps/worker/src/index.ts:586-590 | the sender becomes admin exactly when the token is the room's; no other session changes |
| RoomActor.RegisteredAfterSet | apps/worker/src/index.ts:587 | setting one session leaves every other socket's entry as it was |
| RoomActor.UploadCases | apps/worker/src/index.ts:613-624 | oversized data is dropped, 50 stored uploads give an error, otherwise the data is appended verbatim and rebroadcast |
| RoomActor.SignaturesStayCapped | apps/worker/src/index.ts:615-619 | no message takes stored signatures above 50 |
| RoomActor.WhitelistUpdates | apps/worker/src/index.ts:634-641 | no duplicate is added, removing deletes every occurrence, other addresses stay |
| RoomActor.LicensePromotes | apps/worker/src/index.ts:569-584 | a valid license makes the room paid enterprise with at least a day left, never shortening it; the new expiry is now + 1 day when less than a day was left and unchanged otherwise, the alarm is re-armed at that expiry only in the first case, and every session receives ROOM_UNLOCKED with the new expiry |
| RoomActor.PaidEnterpriseIgnoresLicense | apps/worker/src/index.ts:570 | a paid enterprise room ignores license messages |
| RoomActor.TeardownClosesEverything | apps/worker/src/index.ts:626-632 | closing the room and the alarm both clear room and storage and close every session; CLOSE_ROOM first sends every session ROOM_CLOSED carrying the audit log plus a "Room Destroyed" entry, then closes them all with code 1000 |
| RoomActor.DeadRoomIsInert | apps/worker/src/index.ts:461 | without a room, logging, messages, unlock, extend and admission do nothing (or refuse) |
| RoomActor.GuestObtainsCoordinatorRole | apps/worker/src/index.ts:561 | as written: a newly admitted guest reads the admin token from the sync frame and, sending it back, becomes coordinator |
| RoomActor.SyncFrameHidesToken | apps/worker/src/index.ts:561 | the corrected frame is the room without its token, and is the same whatever the token is |
| RoomActor.SigningRoom.constructor | apps/worker/src/index.ts:452-458 | the room is whatever storage held, with no sessions |
| RoomActor.SigningRoom.Log | apps/worker/src/index.ts:460-465 | the new state is the log step of the old one: a no-op without a room, else one entry appended and stored |
| RoomActor.SigningRoom.Broadcast | apps/worker/src/index.ts:660-665 | the loop appends one send of the frame per session, in session order, changing no state |
| RoomActor.SigningRoom.CloseSessions | apps/worker/src/index.ts:631 | the loop appends one close per session, in session order, changing no state |
| RoomActor.SigningRoom.Init | apps/worker/src/index.ts:472-501 | the new state and the success flag are those of the init step, whose facts are stated in InitFacts |
| RoomActor.SigningRoom.Unlock | apps/worker/src/index.ts:503-509 | state, deliveries and status are those of the unlock step |
| RoomActor.SigningRoom.Extend | apps/worker/src/index.ts:511-523 | state, deliveries and status are those of the extend step (see ExtendNeverShortens) |
| RoomActor.SigningRoom.HandleSession | apps/worker/src/index.ts:532-561 | state and deliveries are those of the admission step (see AdmissionOrder) |
| RoomActor.SigningRoom.OnSocketClose | apps/worker/src/index.ts:652-657 | state and deliveries are those of the leave step: the socket unregistered, the count rebroadcast, the departure logged |
| RoomActor.SigningRoom.Alarm | apps/worker/src/index.ts:667-671 | state and deliveries are those of the alarm step: room and storage cleared, every session closed |
| RoomActor.SigningRoom.HandleMessage | apps/worker/src/index.ts:563-649 | state and deliveries are those of the message step, which keeps the room stored and sockets unique |
| RoomActor.SigningRoom.OnVerifyLicense | apps/worker/src/index.ts:569-584 | state and deliveries are those of the license step (see LicensePromotes) |
| RoomActor.SigningRoom.OnAuth | apps/worker/src/index.ts:586-590 | state and deliveries are those of the auth step (see AuthIffToken) |
| RoomActor.SigningRoom.OnUpdateLabel | apps/worker/src/index.ts:592-598 | state and deliveries are those of the label step: admin only, label set, stored, broadcast |
| RoomActor.SigningRoom.OnRenameRoom | apps/worker/src/index.ts:600-606 | state and deliveries are those of the rename step: admin and enterprise only |
| RoomActor.SigningRoom.OnUploadPartial | apps/worker/src/index.ts:613-624 | state and deliveries are those of the upload step (see UploadCases) |
| RoomActor.SigningRoom.OnCloseRoom | apps/worker/src/index.ts:626-632 | state and deliveries are those of the close step (see TeardownClosesEverything) |
| RoomActor.SigningRoom.Teardown | apps/worker/src/index.ts:667-671 | storage and room cleared, every session closed with code 1000 and the reason; the session table and alarm kept |
| RoomActor.SigningRoom.OnUpdateWhitelist | apps/worker/src/index.ts:634-641 | state and deliveries are those of the whitelist step (see WhitelistUpdates) |
| RoomActor.SigningRoom.OnToggleLock | apps/worker/src/index.ts:643-648 | state and deliveries are those of the lock step: admin only, stored, broadcast |
| Routes.GateOf | apps/worker/src/index.ts:164-169 | preflight passes untouched, unknown IPs proceed, others are limited exactly when the limiter refuses |
| Routes.Middleware | apps/worker/src/index.ts:130-172 | updates the limiter and gates as specified |
| Routes.CreateRoom | apps/worker/src/index.ts:178-198 | oversized payloads get 413 with no room; otherwise the room is initialised with the generated id and token |
| Routes.PaymentGate | apps/worker/src/index.ts:232-242 | success exactly when paid for at least the price; unpaid exactly when not paid |
| Routes.MissingAmountRefused | apps/worker/src/index.ts:234 | a paid payment without an amount is insufficient |
| Routes.ExtendRoute | apps/worker/src/index.ts:223-243 | a failed lookup answers with an error and leaves the room alone; otherwise the gate's answer, and only a sufficient payment extends the room |
| Routes.UnlockRoute | apps/worker/src/index.ts:245-265 | a failed lookup answers with an error and leaves the room alone; otherwise the gate's answer, and only a sufficient payment unlocks the room |
| Routes.UnlockPaymentCoversExtend | apps/worker/src/index.ts:18-19 | an unlock payment covers an extension, not the other way round |
| Routes.LnbitsWebhook | apps/worker/src/index.ts:274-282 | any non-empty room id extends the room, with no payment check |
| Routes.LicensePriceMsats | apps/worker/src/index.ts:352 | genesis costs 2 100 000 000 msats, everything else 300 000 000 |
| Routes.BuyLicense | apps/worker/src/index.ts:298-329 | genesis is refused at 21 sold; the counter never changes; no backend gives 500; otherwise the invoice asks for the type's price in sats, with the type's memo |
| Routes.InvoiceMemoNamesType | apps/worker/src/index.ts:301-306 | the claim route reads each invoice memo back as the type it was bought for, and so prices it the same |
| Routes.AnnualMemoNotGenesis | apps/worker/src/index.ts:302 | the annual memo does not contain `GENESIS` |
| Routes.WebhookDecision | apps/worker/src/index.ts:340-357 | mints exactly when a backend exists, the payment is paid and covers the price; a missing backend is a configuration error and a failed lookup a verification failure; a refusal is never the `OK` answer |
| Routes.LicenseWebhook | apps/worker/src/index.ts:335-376 | refusals write nothing; a mint confirms genesis, creates the license, parks its key under `pending:<hash>` and answers the plain `OK`, without the key |
| Routes.GenesisMintedWhenSoldOut | apps/worker/src/index.ts:360-367 | as written: a paid genesis webhook mints even when the counter refuses the confirm |
| Routes.ClaimType | apps/worker/src/index.ts:399-401 | genesis exactly when the memo contains "GENESIS" |
| Routes.ClaimLicense | apps/worker/src/index.ts:382-426 | a pending key is returned unchanged; unpaid or no backend is not ready; paid claims mint by memo type |
| Routes.GenesisMemoPricing | apps/worker/src/index.ts:399-405 | a memo containing GENESIS is priced as genesis |
| Routes.RotateRoute | apps/worker/src/index.ts:428-438 | a missing key is 400; otherwise the rotation result, writing nothing on error |

## Left out

- Concurrency: the Durable Object's `blockConcurrencyWhile`, interleaving at `await` points, and concurrent requests against one counter or one key. Every handler runs to completion on its own. The reserve/confirm oversell race and the non-atomic `rotate` are therefore not modelled; `rotate`'s three writes are modelled in sequence.
- A failing `socket.send` inside `broadcast`, which deletes that session: sends never fail in the model.
- KV expiry (`expirationTtl: 3600` on pending keys): a parked key stays parked.
- The `/state` debug route, `/api/room/:id/invoice`, the `/api/license/stock` pass-through and the WebSocket upgrade plumbing: either no logic or only forwarding. The upgrade plumbing is the 426 answer and the 101 hand-off.
- CORS and the security headers of the middleware: headers only. The preflight and rate-limit outcome is modelled.
- JSON encoding and decoding:
  - messages and records are datatypes;
  - a KV text value read where a record is expected is the `JSON.parse` failure;
  - a record read where a reference or a pending key is expected counts as a missing entry.
- `deleteAll`'s effect on the alarm: the alarm value is left as it was, and the room and its stored copy are cleared.
- LNbits, the payment backend behind `fetch`: each lookup is an optional `Payment` parameter, none when the call or its JSON body throws (`/extend` and `/unlock` then answer `LookupFailed`, the unhandled 500), and the configured key is a `hasBackend` flag. Invoice creation bodies are not modelled, apart from the amount.
- The room routes reach the room object that `idFromName(roomId)` selects; the model takes that object as a parameter.
- A license `type` missing from a webhook's query is the text "undefined", as the template string renders it.
- `Math.random` session ids, `crypto.randomUUID` and `crypto.getRandomValues`: parameters.
- AES-GCM, `btoa`/`atob`, `TextEncoder`/`TextDecoder` and the PSBT library: uninterpreted. Combiner commutativity or idempotence (BIP 174) is therefore not claimed.
- `tx.finalize()`/`extract()` in `getFinalTxHex`: the extracted hex is a parameter of the finalize methods, and the role and state guards around it are modelled.
- `Common.Lower`: lower-cases ASCII letters only; JavaScript's full Unicode case mapping is not modelled.
- Floating point:
  - `isHighFee` compares integers (`fee > 100 · vbytes`, `20 · fee > total`), the same order as the source's divisions;
  - `amountBtc` is kept in satoshis;
  - `feeRate`'s `toFixed(2)` and `vsize` are not modelled: the details keep the integer parts.
- UI and browser state: Angular signals effects, modals, clipboard, confetti, the PDF audit report, `localStorage`/`sessionStorage` (`getLocalLabel`'s address book is a map parameter) and routing.
- Timer scheduling: the `setInterval` itself is one `Tick` call per firing, and the `setTimeout` reconnect is the boolean `OnClose` returns. The payment polling loops (`pollPayment`, `waitForLicenseKey`) are plain HTTP plumbing and are not modelled.
- The client's thin senders (`claimCoordinator`, `closeRoom`, `logAction`, `renameRoom`, `updateSignerLabel`, `updateWhitelist`, `toggleLock`): each is one `Send` of its message.
- The home page, the app shell, routing and `tools/generate-canary.js`: UI, routing, or a network fetch and a file write.
- SyncFrame: the model's STATE_SYNC frame is the corrected one, without `adminToken`; index.ts:561 sends the whole room state, token included. The frame as written is `RoomActor.SyncFrameAsWritten`, and "## Findings" shows the leak it causes.
- AdmitStep: sends the corrected `SyncFrame` to the admitted socket, not the token-carrying frame of index.ts:561; everything else it does is as written.
- AdmissionOrder: the sync frame it states is the corrected `SyncFrame`, not the frame of index.ts:561.
- HandleSession (`RoomActor.SigningRoom.HandleSession`): delivers the corrected `SyncFrame`, as `AdmitStep` does, not the token-carrying frame of index.ts:561.
- SocketClient.SyncSetsState:
  - the service test at `apps/client/src/app/services/socket/socket.service.spec.ts:73-89` expects `decrypt` to be called for a message carrying only `psbt`;
  - the code at `socket.service.ts:491-495` decrypts only `encryptedPsbt`;
  - the model follows the code, so a plain `psbt` is used without decryption.
- Dust: the check at `create.component.ts:850-860` applies to every output, change outputs included, so any output below 546 sats voids the analysis; the model does the same (`CreatePage.DustVoidsAnalysis`).
- Network names: `create.component.ts:863` calls the main network `bitcoin`, and so does the model (`CreatePage.NetworkOf`).

## Findings

| source | as written | input that shows it | evidently intended | confidence | as-written member | corrected member |
|---|---|---|---|---|---|---|
| apps/worker/src/index.ts:561 | The `STATE_SYNC` frame sent to every newly admitted socket spreads the whole room state, `adminToken` included. | Any guest joins an unlocked room with space. It reads `adminToken` from its first `STATE_SYNC` and sends `AUTH` with it, and `AUTH` makes it coordinator. | The coordinator token is never sent to sessions; only the creator, who gets it from `POST /api/room`, can claim the role. The corrected frame carries the room with the token removed. | not executed | RoomActor.GuestObtainsCoordinatorRole | RoomActor.SyncFrameHidesToken |

The rest of the model uses the corrected frame: `RoomActor.AdmitStep` and `SigningRoom.HandleSession` send `RoomActor.SyncFrame`. `RoomActor.SyncFrameAsWritten` is the frame as written.

These behaviours are kept exactly as written, and stated as such:
- capacity is checked before the lock (`RoomActor.FullBeforeLocked`);
- the Genesis confirm answer is ignored before minting (`Routes.GenesisMintedWhenSoldOut`, `Routes.LicenseWebhook`, `Routes.ClaimLicense`);
- the LNbits webhook extends without a payment check (`Routes.LnbitsWebhook`);
- `canFinalize` counts uploads rather than distinct signers (`RoomPage.TwoUploadsReachTwoOfN`);
- the creation page's fee is not clamped (`CreatePage.FeeIsNotClamped`), while the transaction details clamp it (`PsbtTools.DetailsFeeClamped`).
