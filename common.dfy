/** Shared vocabulary: optional values, results, bytes and the string helpers
    (JavaScript `trim`, `startsWith`, `toString(16)`, `padStart`, hex encoding)
    that the client and the worker both lean on. */
module Common {

  datatype Option<+T> = None | Some(value: T) {
    function GetOr(default: T): T {
      match this
      case Some(v) => v
      case None => default
    }
  }

  datatype Result<+T, +E> = Ok(value: T) | Err(error: E)

  /** `f` applied to every element, the results concatenated from the left. */
  function ConcatMap<T, U>(xs: seq<T>, f: T -> seq<U>): seq<U> {
    if xs == [] then [] else ConcatMap(xs[..|xs| - 1], f) + f(xs[|xs| - 1])
  }

  lemma {:induction false} ConcatMapAppend<T, U>(a: seq<T>, b: seq<T>, f: T -> seq<U>)
    ensures ConcatMap(a + b, f) == ConcatMap(a, f) + ConcatMap(b, f)
  {
    if b == [] {
      assert a + b == a;
    } else {
      ConcatMapAppend(a, b[..|b| - 1], f);
      assert (a + b)[..|a + b| - 1] == a + b[..|b| - 1];
      assert (a + b)[|a + b| - 1] == b[|b| - 1];
    }
  }

  /** `f` applied to every element from the left, the results concatenated, stopping at the
      first error. */
  function Collect<T, U, E>(xs: seq<T>, f: T -> Result<seq<U>, E>): Result<seq<U>, E> {
    if xs == [] then Ok([])
    else
      match Collect(xs[..|xs| - 1], f)
      case Err(e) => Err(e)
      case Ok(init) =>
        match f(xs[|xs| - 1])
        case Err(e) => Err(e)
        case Ok(last) => Ok(init + last)
  }

  /** When every element yields one value, `Collect` yields them all, in order. */
  lemma {:induction false} CollectSingletons<T, U, E>(xs: seq<T>, f: T -> Result<seq<U>, E>, ys: seq<U>)
    requires |ys| == |xs|
    requires forall i :: 0 <= i < |xs| ==> f(xs[i]) == Ok([ys[i]])
    ensures Collect(xs, f) == Ok(ys)
  {
    if xs != [] {
      var n := |xs| - 1;
      var a, b := xs[..n], ys[..n];
      assert forall i :: 0 <= i < n ==> a[i] == xs[i] && b[i] == ys[i];
      CollectSingletons(a, f, b);
      assert ys == b + [ys[n]];
    }
  }

  /** An error on a prefix is the error of the whole. */
  lemma {:induction false} CollectErrSticks<T, U, E>(xs: seq<T>, f: T -> Result<seq<U>, E>, n: nat)
    requires n <= |xs| && Collect(xs[..n], f).Err?
    ensures Collect(xs, f) == Collect(xs[..n], f)
    decreases |xs| - n
  {
    if n < |xs| {
      assert xs[..n + 1][..n] == xs[..n];
      CollectErrSticks(xs, f, n + 1);
    } else {
      assert xs[..n] == xs;
    }
  }

  /** One octet, as held by a `Uint8Array`. */
  type byte = b: int | 0 <= b < 256

  /** JavaScript `a || b` on an optional string: an absent or empty string gives the default. */
  function OrDefault(o: Option<string>, default: string): (r: string)
    ensures o.Some? && o.value != "" ==> r == o.value
    ensures (o.None? || o.value == "") ==> r == default
  {
    if o.Some? && o.value != "" then o.value else default
  }

  /** How a template literal renders an optional string: an absent value prints as "undefined". */
  function Render(o: Option<string>): string {
    if o.Some? then o.value else "undefined"
  }

  predicate StartsWith(s: string, prefix: string) {
    |prefix| <= |s| && s[..|prefix|] == prefix
  }

  predicate EndsWith(s: string, suffix: string) {
    |suffix| <= |s| && s[|s| - |suffix|..] == suffix
  }

  predicate Contains(s: string, c: char) {
    exists i :: 0 <= i < |s| && s[i] == c
  }

  /** The characters ECMAScript's `trim` and the regular-expression class `\s` both match:
      WhiteSpace and LineTerminator of the ECMAScript grammar. */
  predicate IsSpace(c: char) {
    c == '\t' || c == '\n' || c == '\U{000B}' || c == '\U{000C}' || c == '\r' || c == ' '
    || c == '\U{00A0}' || c == '\U{1680}' || ('\U{2000}' <= c <= '\U{200A}')
    || c == '\U{2028}' || c == '\U{2029}' || c == '\U{202F}' || c == '\U{205F}'
    || c == '\U{3000}' || c == '\U{FEFF}'
  }

  function TrimStart(s: string): (r: string)
    ensures |r| <= |s| && r == s[|s| - |r|..]
    ensures r == "" || !IsSpace(r[0])
    ensures forall i :: 0 <= i < |s| - |r| ==> IsSpace(s[i])
  {
    if s == [] || !IsSpace(s[0]) then s else TrimStart(s[1..])
  }

  function TrimEnd(s: string): (r: string)
    ensures |r| <= |s| && r == s[..|r|]
    ensures r == "" || !IsSpace(r[|r| - 1])
    ensures forall i :: |r| <= i < |s| ==> IsSpace(s[i])
  {
    if s == [] || !IsSpace(s[|s| - 1]) then s else TrimEnd(s[..|s| - 1])
  }

  /** `String.prototype.trim`. */
  function Trim(s: string): (r: string)
    ensures r == "" || (!IsSpace(r[0]) && !IsSpace(r[|r| - 1]))
  {
    TrimEnd(TrimStart(s))
  }

  /** A text with no white space at either end is its own trim. */
  lemma TrimUntrimmable(s: string)
    requires s == "" || (!IsSpace(s[0]) && !IsSpace(s[|s| - 1]))
    ensures Trim(s) == s
  {
    assert TrimStart(s) == s;
    assert TrimEnd(s) == s;
  }

  /** `s.replace(/\s/g, '')`: every whitespace character removed, the rest kept in order. */
  function RemoveSpaces(s: string): string {
    if s == [] then []
    else if IsSpace(s[0]) then RemoveSpaces(s[1..])
    else [s[0]] + RemoveSpaces(s[1..])
  }

  /** No white space is left, nothing grows, and a text without white space is unchanged. */
  lemma {:induction false} RemoveSpacesFacts(s: string)
    ensures |RemoveSpaces(s)| <= |s|
    ensures forall i :: 0 <= i < |RemoveSpaces(s)| ==> !IsSpace(RemoveSpaces(s)[i])
    ensures (forall i :: 0 <= i < |s| ==> !IsSpace(s[i])) ==> RemoveSpaces(s) == s
  {
    if s != [] {
      RemoveSpacesFacts(s[1..]);
      if forall i :: 0 <= i < |s| ==> !IsSpace(s[i]) {
        assert forall i :: 0 <= i < |s[1..]| ==> !IsSpace(s[1..][i]) by {
          forall i | 0 <= i < |s[1..]| ensures !IsSpace(s[1..][i]) { assert s[1..][i] == s[i + 1]; }
        }
      }
    }
  }

  /** Removal works character by character: a whitespace character is dropped, any other kept. */
  lemma RemoveSpacesChar(c: char)
    ensures RemoveSpaces([c]) == if IsSpace(c) then [] else [c]
  {
    assert [c][1..] == [];
  }

  /** Removal distributes over concatenation, so the characters that remain keep their order. */
  lemma {:induction false} RemoveSpacesAppend(a: string, b: string)
    ensures RemoveSpaces(a + b) == RemoveSpaces(a) + RemoveSpaces(b)
  {
    if a == [] {
      assert a + b == b;
    } else {
      var ab := a + b;
      assert ab[0] == a[0] && ab[1..] == a[1..] + b;
      RemoveSpacesAppend(a[1..], b);
      if IsSpace(a[0]) {
        assert RemoveSpaces(ab) == RemoveSpaces(a[1..] + b);
      } else {
        assert RemoveSpaces(ab) == [a[0]] + RemoveSpaces(a[1..] + b);
      }
    }
  }

  /** ASCII case folding; `toLowerCase` on the hexadecimal texts and file names it is used on here. */
  function LowerChar(c: char): char {
    if 'A' <= c <= 'Z' then (c as int + 32) as char else c
  }

  function Lower(s: string): (r: string)
    ensures |r| == |s|
    ensures forall i :: 0 <= i < |s| ==> r[i] == LowerChar(s[i])
  {
    seq(|s|, i requires 0 <= i < |s| => LowerChar(s[i]))
  }

  lemma LowerPrefix(s: string, n: nat)
    requires n <= |s|
    ensures Lower(s)[..n] == Lower(s[..n])
  {
  }

  /** The regular expression `/^[0-9a-fA-F]+$/`. */
  predicate IsHexDigit(c: char) {
    ('0' <= c <= '9') || ('a' <= c <= 'f') || ('A' <= c <= 'F')
  }

  predicate IsHexText(s: string) {
    |s| > 0 && forall i :: 0 <= i < |s| ==> IsHexDigit(s[i])
  }

  function HexDigit(n: nat): (c: char)
    requires n < 16
    ensures IsHexDigit(c) && !('A' <= c <= 'F')
  {
    if n < 10 then ('0' as int + n) as char else ('a' as int + n - 10) as char
  }

  function HexValue(c: char): (n: nat)
    requires IsHexDigit(c)
    ensures n < 16
  {
    if '0' <= c <= '9' then c as int - '0' as int
    else if 'a' <= c <= 'f' then c as int - 'a' as int + 10
    else c as int - 'A' as int + 10
  }

  lemma HexValueOfDigit(n: nat)
    requires n < 16
    ensures HexValue(HexDigit(n)) == n
  {
  }

  /** Two lowercase hexadecimal digits per byte: `hex.encode` of the client's codec library, and
      `b.toString(16).padStart(2, '0')` joined over the bytes of a file. */
  function HexEncode(bytes: seq<byte>): (s: string)
    ensures |s| == 2 * |bytes|
  {
    if bytes == [] then []
    else [HexDigit(bytes[0] / 16), HexDigit(bytes[0] % 16)] + HexEncode(bytes[1..])
  }

  /** One byte is its two digits. */
  lemma HexEncodeByte(b: byte)
    ensures HexEncode([b]) == [HexDigit(b / 16), HexDigit(b % 16)]
  {
    assert [b][1..] == [];
  }

  /** Byte `i` becomes characters `2i` (its high nibble) and `2i + 1` (its low nibble). */
  lemma {:induction false} HexEncodeChars(bytes: seq<byte>)
    ensures forall i :: 0 <= i < |bytes| ==>
      HexEncode(bytes)[2 * i] == HexDigit(bytes[i] / 16) && HexEncode(bytes)[2 * i + 1] == HexDigit(bytes[i] % 16)
  {
    if bytes != [] {
      HexEncodeChars(bytes[1..]);
      var s := HexEncode(bytes);
      forall i | 1 <= i < |bytes|
        ensures s[2 * i] == HexDigit(bytes[i] / 16) && s[2 * i + 1] == HexDigit(bytes[i] % 16)
      {
        assert bytes[1..][i - 1] == bytes[i];
        assert s[2 * i] == HexEncode(bytes[1..])[2 * (i - 1)];
        assert s[2 * i + 1] == HexEncode(bytes[1..])[2 * (i - 1) + 1];
      }
    }
  }

  /** Every character of a hexadecimal rendering is a hexadecimal digit, none of them white space. */
  lemma HexEncodeDigits(bytes: seq<byte>)
    ensures forall i :: 0 <= i < |HexEncode(bytes)| ==> IsHexDigit(HexEncode(bytes)[i]) && !IsSpace(HexEncode(bytes)[i])
  {
    var s := HexEncode(bytes);
    HexEncodeChars(bytes);
    forall i | 0 <= i < |s| ensures IsHexDigit(s[i]) && !IsSpace(s[i]) {
      var k := i / 2;
      assert k < |bytes|;
      if i == 2 * k {
        assert s[i] == HexDigit(bytes[k] / 16);
      } else {
        assert i == 2 * k + 1;
        assert s[i] == HexDigit(bytes[k] % 16);
      }
    }
  }

  lemma {:induction false} HexEncodeAppend(a: seq<byte>, b: seq<byte>)
    ensures HexEncode(a + b) == HexEncode(a) + HexEncode(b)
  {
    if a == [] {
      assert a + b == b;
    } else {
      HexEncodeAppend(a[1..], b);
      assert (a + b)[0] == a[0] && (a + b)[1..] == a[1..] + b;
    }
  }

  /** Distinct byte strings have distinct hexadecimal renderings. */
  lemma HexEncodeInjective(a: seq<byte>, b: seq<byte>)
    requires HexEncode(a) == HexEncode(b)
    ensures a == b
  {
    assert |a| == |b|;
    HexEncodeChars(a);
    HexEncodeChars(b);
    forall i | 0 <= i < |a| ensures a[i] == b[i] {
      var s := HexEncode(a);
      assert s[2 * i] == HexDigit(a[i] / 16) == HexDigit(b[i] / 16);
      assert s[2 * i + 1] == HexDigit(a[i] % 16) == HexDigit(b[i] % 16);
      HexValueOfDigit(a[i] / 16);
      HexValueOfDigit(b[i] / 16);
      HexValueOfDigit(a[i] % 16);
      HexValueOfDigit(b[i] % 16);
    }
  }

  /** `hex.decode`: an even-length text of hexadecimal digits, two digits per byte; anything else throws. */
  function HexDecode(s: string): (r: Option<seq<byte>>)
    ensures r.Some? <==> |s| % 2 == 0 && forall i :: 0 <= i < |s| ==> IsHexDigit(s[i])
    ensures r.Some? ==> 2 * |r.value| == |s|
    decreases |s|
  {
    if s == [] then Some([])
    else if |s| == 1 || !IsHexDigit(s[0]) || !IsHexDigit(s[1]) then None
    else
      match HexDecode(s[2..])
      case None =>
        assert !(forall i :: 0 <= i < |s| ==> IsHexDigit(s[i])) || |s| % 2 != 0 by {
          if |s| % 2 == 0 && forall i :: 0 <= i < |s| ==> IsHexDigit(s[i]) {
            assert forall i :: 0 <= i < |s[2..]| ==> s[2..][i] == s[i + 2];
          }
        }
        None
      case Some(rest) =>
        assert forall i :: 0 <= i < |s[2..]| ==> s[2..][i] == s[i + 2];
        Some([HexValue(s[0]) * 16 + HexValue(s[1])] + rest)
  }

  /** Decoding the lowercase hexadecimal rendering of bytes gives the bytes back. */
  lemma {:induction false} HexRoundTrip(bytes: seq<byte>)
    ensures HexDecode(HexEncode(bytes)) == Some(bytes)
  {
    if bytes != [] {
      var s := HexEncode(bytes);
      HexRoundTrip(bytes[1..]);
      assert s[2..] == HexEncode(bytes[1..]);
      HexValueOfDigit(bytes[0] / 16);
      HexValueOfDigit(bytes[0] % 16);
      assert [bytes[0]] + bytes[1..] == bytes;
    }
  }

  /** `n.toString(16)` for a non-negative integer: lowercase digits, no leading zeros. */
  function NatToHex(n: nat): (s: string)
    ensures |s| >= 1
    ensures forall i :: 0 <= i < |s| ==> IsHexDigit(s[i])
  {
    if n < 16 then [HexDigit(n)] else NatToHex(n / 16) + [HexDigit(n % 16)]
  }

  /** The number a text of hexadecimal digits denotes, most significant digit first. */
  function HexNumber(s: string): nat
    requires forall i :: 0 <= i < |s| ==> IsHexDigit(s[i])
  {
    if s == [] then 0 else HexNumber(s[..|s| - 1]) * 16 + HexValue(s[|s| - 1])
  }

  function Pow16(k: nat): (p: nat)
    ensures p >= 1
  {
    if k == 0 then 1 else 16 * Pow16(k - 1)
  }

  /** `n.toString(16)` denotes `n`, in lower-case digits, with no leading zero unless it is "0". */
  lemma {:induction false} NatToHexDenotes(n: nat)
    ensures HexNumber(NatToHex(n)) == n
    ensures forall i :: 0 <= i < |NatToHex(n)| ==> !('A' <= NatToHex(n)[i] <= 'F')
    ensures NatToHex(n)[0] == '0' <==> n == 0
  {
    var s := NatToHex(n);
    if n < 16 {
      HexValueOfDigit(n);
      assert s[..0] == [];
    } else {
      NatToHexDenotes(n / 16);
      assert s[..|s| - 1] == NatToHex(n / 16);
      assert s[0] == NatToHex(n / 16)[0];
      HexValueOfDigit(n % 16);
    }
  }

  /** Below `16^k`, `n.toString(16)` has at most `k` digits. */
  lemma {:induction false} NatToHexLength(n: nat, k: nat)
    requires 1 <= k && n < Pow16(k)
    ensures |NatToHex(n)| <= k
  {
    if n >= 16 {
      assert k >= 2;
      NatToHexLength(n / 16, k - 1);
    }
  }

  /** Distinct numbers have distinct `toString(16)` texts. */
  lemma NatToHexInjective(a: nat, b: nat)
    requires NatToHex(a) == NatToHex(b)
    ensures a == b
  {
    NatToHexDenotes(a);
    NatToHexDenotes(b);
  }

  /** Leading zeros do not change the number a hexadecimal text denotes. */
  lemma {:induction false} LeadingZerosKeepNumber(z: nat, s: string)
    requires forall i :: 0 <= i < |s| ==> IsHexDigit(s[i])
    ensures var t := seq(z, _ => '0') + s;
      (forall i :: 0 <= i < |t| ==> IsHexDigit(t[i])) && HexNumber(t) == HexNumber(s)
    decreases z + |s|
  {
    var t := seq(z, _ => '0') + s;
    if s == [] {
      assert t == seq(z, _ => '0');
      if z > 0 {
        LeadingZerosKeepNumber(z - 1, []);
        assert t[..|t| - 1] == seq(z - 1, _ => '0') + [];
      }
    } else {
      LeadingZerosKeepNumber(z, s[..|s| - 1]);
      assert t[..|t| - 1] == seq(z, _ => '0') + s[..|s| - 1];
    }
  }

  /** `n.toString()` for a non-negative integer. */
  function NatToDecimal(n: nat): (s: string)
    ensures |s| >= 1
    ensures forall i :: 0 <= i < |s| ==> '0' <= s[i] <= '9'
  {
    if n < 10 then [('0' as int + n) as char] else NatToDecimal(n / 10) + [('0' as int + n % 10) as char]
  }

  /** `s.padStart(width, c)`. */
  function PadStart(s: string, width: nat, c: char): (r: string)
    ensures |r| == if |s| >= width then |s| else width
    ensures r[|r| - |s|..] == s
    ensures forall i :: 0 <= i < |r| - |s| ==> r[i] == c
  {
    if |s| >= width then s else seq(width - |s|, _ => c) + s
  }

  /** The index of the first occurrence of `c` in `s`, if any. */
  function IndexOf(s: string, c: char): (r: Option<nat>)
    ensures r.None? <==> !Contains(s, c)
    ensures r.Some? ==> r.value < |s| && s[r.value] == c && forall j :: 0 <= j < r.value ==> s[j] != c
  {
    if s == [] then None
    else if s[0] == c then Some(0)
    else match IndexOf(s[1..], c)
      case None =>
        assert forall i :: 1 <= i < |s| ==> s[i] == s[1..][i - 1];
        None
      case Some(k) =>
        assert forall j :: 1 <= j < k + 1 ==> s[j] == s[1..][j - 1];
        Some(k + 1)
  }

  /** `f` is the `c`-separated field of `s` that starts at `start`: the text from there up to the
      next `c`, or to the end. */
  predicate FieldAt(s: string, c: char, start: nat, f: string) {
    && start + |f| <= |s|
    && s[start..start + |f|] == f
    && !Contains(f, c)
    && (start + |f| == |s| || s[start + |f|] == c)
  }

  /** A field is determined by where it starts. */
  lemma FieldAtUnique(s: string, c: char, start: nat, f: string, g: string)
    requires FieldAt(s, c, start, f) && FieldAt(s, c, start, g)
    ensures f == g
  {
  }

  /** `s.split(c)[1]`: the text after the first `c`, up to the next `c` (or the end). Absent when
      `c` does not occur. */
  function SecondField(s: string, c: char): (r: Option<string>)
    ensures r.Some? <==> Contains(s, c)
    ensures r.Some? ==> IndexOf(s, c).Some? && FieldAt(s, c, IndexOf(s, c).value + 1, r.value)
  {
    match IndexOf(s, c)
    case None => None
    case Some(i) =>
      var rest := s[i + 1..];
      match IndexOf(rest, c)
      case None => Some(rest)
      case Some(j) =>
        assert forall k :: 0 <= k < j ==> rest[..j][k] == rest[k];
        Some(rest[..j])
  }
}
