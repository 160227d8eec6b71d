/**
 * The base64 reader for key handles and public keys: a shift register of 32 bits that is never
 * masked. What it must compute is the bit string itself, read off an unbounded number.
 */
module Base64 {
  import opened Bytes

  type Sextet = x: int | 0 <= x < 64

  predicate Between(low: char, c: char, high: char) {
    low <= c <= high
  }

  /** Both alphabets of RFC 4648, section 4 and section 5, at once. */
  function ValueOf(c: char): Option<Sextet> {
    if Between('A', c, 'Z') then Some(c as int - 'A' as int)
    else if Between('a', c, 'z') then Some(c as int - 'a' as int + 26)
    else if Between('0', c, '9') then Some(c as int - '0' as int + 52)
    else if c == '+' || c == '-' then Some(62)
    else if c == '/' || c == '_' then Some(63)
    else None
  }

  function TrimEnd(text: string): (trimmed: string)
    ensures trimmed <= text && (trimmed != "" ==> trimmed[|trimmed| - 1] != '=')
    ensures forall i :: |trimmed| <= i < |text| ==> text[i] == '='
  {
    if text != "" && text[|text| - 1] == '=' then TrimEnd(text[..|text| - 1]) else text
  }

  predicate Alphabetic(text: string) {
    forall c <- text :: ValueOf(c).Some?
  }

  /** The number that the characters spell in base 64. */
  function Number64(text: string): nat
    requires Alphabetic(text)
  {
    if text == "" then 0 else 64 * Number64(text[..|text| - 1]) + ValueOf(text[|text| - 1]).value
  }

  /** `n >> k` and `n << k`. */
  function ShiftRight(n: nat, k: nat): nat {
    if k == 0 then n else ShiftRight(n / 2, k - 1)
  }

  function ShiftLeft(n: nat, k: nat): nat {
    if k == 0 then n else 2 * ShiftLeft(n, k - 1)
  }

  /** The leading whole bytes of the 6n bits; what is left over is dropped. */
  function LeadingBytes(text: string): (bytes: seq<byte>)
    requires Alphabetic(text)
    ensures |bytes| == 6 * |text| / 8
  {
    BigEndian(ShiftRight(Number64(text), 6 * |text| % 8), 6 * |text| / 8)
  }

  function Decoded(text: string): Option<seq<byte>> {
    if Alphabetic(TrimEnd(text)) then Some(LeadingBytes(TrimEnd(text))) else None
  }

  // ---- The loop ---------------------------------------------------------------------------------

  lemma SmallShifts(n: nat)
    ensures ShiftRight(n, 0) == n && ShiftRight(n, 2) == n / 4 && ShiftRight(n, 4) == n / 16
            && ShiftRight(n, 6) == n / 64
  {
    assert ShiftRight(n, 2) == ShiftRight(n / 2, 1) == n / 2 / 2;
    assert ShiftRight(n, 4) == ShiftRight(n / 2, 3) == ShiftRight(n / 2 / 2, 2) == ShiftRight(n / 2 / 2 / 2, 1);
    assert ShiftRight(n, 6) == ShiftRight(n / 2, 5) == ShiftRight(n / 2 / 2, 4);
    assert ShiftRight(n / 2 / 2, 4) == ShiftRight(n / 2 / 2 / 2, 3) == ShiftRight(n / 2 / 2 / 2 / 2, 2);
    assert ShiftRight(n / 2 / 2 / 2 / 2, 2) == ShiftRight(n / 2 / 2 / 2 / 2 / 2, 1);
  }

  /** `(bits << 6) | value` in 32 bits keeps the low 32 bits of the exact number. */
  lemma ShiftKeepsTheLowBits(exact: nat, bits: Word, value: Sextet)
    requires bits == exact % 0x1_0000_0000
    ensures (bits * 64) % 0x1_0000_0000 + value == (64 * exact + value) % 0x1_0000_0000
  {
    var high := exact / 0x1_0000_0000;
    assert exact == 0x1_0000_0000 * high + bits;
    assert 64 * exact == 0x1_0000_0000 * (64 * high) + 64 * bits;
    var more := (64 * bits) / 0x1_0000_0000;
    assert 64 * exact == 0x1_0000_0000 * (64 * high + more) + (64 * bits) % 0x1_0000_0000;
  }

  lemma LowByte(above: nat, low: nat)
    ensures (256 * above + low) % 256 == low % 256
  {
  }

  /** The eight bits above the two or four lowest ones are inside the register. */
  lemma RegisterHoldsTheByte(exact: nat, scale: nat)
    requires scale == 1 || scale == 4 || scale == 16
    ensures (exact % 0x1_0000_0000) / scale % 256 == exact / scale % 256
  {
    var low, high := exact % 0x1_0000_0000, exact / 0x1_0000_0000;
    assert exact == 0x1_0000_0000 * high + low;
    if scale == 1 {
      LowByte(0x100_0000 * high, low);
    } else if scale == 4 {
      assert exact / 4 == 0x4000_0000 * high + low / 4;
      LowByte(0x40_0000 * high, low / 4);
    } else {
      assert exact / 16 == 0x1000_0000 * high + low / 16;
      LowByte(0x10_0000 * high, low / 16);
    }
  }

  /** Six bits come in, eight go out: with `scale` left over before, a quarter of it is after. */
  lemma NextByte(exact: nat, value: Sextet, scale: nat)
    requires scale == 1 || scale == 4 || scale == 16
    ensures
      var more := 64 * exact + value;
      more / scale == 256 * (exact / (4 * scale)) + more / scale % 256
  {
    if scale == 1 {
      assert (64 * exact + value) / 256 == exact / 4;
    } else if scale == 4 {
      assert (64 * exact + value) / 4 == 16 * exact + value / 4;
      assert (16 * exact + value / 4) / 256 == exact / 16;
    } else {
      assert (64 * exact + value) / 16 == 4 * exact + value / 16;
      assert (4 * exact + value / 16) / 256 == exact / 64;
    }
  }

  lemma {:induction false} Number64Snoc(text: string, c: char)
    requires Alphabetic(text) && ValueOf(c).Some?
    ensures Alphabetic(text + [c]) && Number64(text + [c]) == 64 * Number64(text) + ValueOf(c).value
  {
    assert (text + [c])[..|text|] == text;
  }

  /** What the loop knows after `seen`. */
  predicate Holds(seen: string, out: seq<byte>, bits: Word, count: nat) {
    && Alphabetic(seen)
    && count == 6 * |seen| % 8 && |out| == 6 * |seen| / 8
    && bits == Number64(seen) % 0x1_0000_0000
    && Number(out) == ShiftRight(Number64(seen), count)
  }

  function Shifted(bits: Word, value: Sextet): Word {
    (bits * 64) % 0x1_0000_0000 + value
  }

  lemma SixBitsMore(seen: string, c: char, out: seq<byte>, bits: Word, count: nat)
    requires Holds(seen, out, bits, count) && ValueOf(c).Some? && count == 0
    ensures Holds(seen + [c], out, Shifted(bits, ValueOf(c).value), 6)
  {
    var exact, value := Number64(seen), ValueOf(c).value;
    Number64Snoc(seen, c);
    ShiftKeepsTheLowBits(exact, bits, value);
    SmallShifts(exact);
    SmallShifts(64 * exact + value);
    hide Number, Number64, ShiftRight, Alphabetic, ValueOf;
    assert (64 * exact + value) / 64 == exact;
  }

  /** The byte that is pushed, and the number with it. */
  lemma PushedByte(exact: nat, value: Sextet, count: nat)
    requires count == 2 || count == 4 || count == 6
    ensures
      var more := 64 * exact + value;
      && ShiftRight(more % 0x1_0000_0000, count - 2) % 256 == ShiftRight(more, count - 2) % 256
      && ShiftRight(more, count - 2) == 256 * ShiftRight(exact, count) + ShiftRight(more, count - 2) % 256
  {
    var more := 64 * exact + value;
    SmallShifts(more % 0x1_0000_0000);
    SmallShifts(more);
    SmallShifts(exact);
    hide ShiftRight;
    if count == 2 {
      RegisterHoldsTheByte(more, 1);
      NextByte(exact, value, 1);
    } else if count == 4 {
      RegisterHoldsTheByte(more, 4);
      NextByte(exact, value, 4);
    } else {
      RegisterHoldsTheByte(more, 16);
      NextByte(exact, value, 16);
    }
  }

  lemma OneByteMore(seen: string, c: char, out: seq<byte>, bits: Word, count: nat)
    requires Holds(seen, out, bits, count) && ValueOf(c).Some? && count > 0
    ensures var more := Shifted(bits, ValueOf(c).value);
            Holds(seen + [c], out + [ShiftRight(more, count - 2) % 256], more, count - 2)
  {
    hide Number, Number64, ShiftRight, Alphabetic, ValueOf;
    var exact, value := Number64(seen), ValueOf(c).value;
    assert count == 2 || count == 4 || count == 6;
    Number64Snoc(seen, c);
    ShiftKeepsTheLowBits(exact, bits, value);
    PushedByte(exact, value, count);
    NumberSnoc(out, ShiftRight(Shifted(bits, value), count - 2) % 256);
  }

  /** Refused exactly when a character outside both alphabets stands before the padding. */
  method Decode(text: string) returns (r: Option<seq<byte>>)
    ensures r == Decoded(text)
    ensures r.None? <==> exists i :: 0 <= i < |TrimEnd(text)| && ValueOf(TrimEnd(text)[i]).None?
  {
    var trimmed := TrimEnd(text);
    var out: seq<byte>, bits: Word, count: nat := [], 0, 0;
    var i := 0;
    while i < |trimmed|
      invariant 0 <= i <= |trimmed| && Holds(trimmed[..i], out, bits, count)
    {
      var value := ValueOf(trimmed[i]);
      if value.None? {
        assert trimmed[i] in trimmed;
        return None;
      }
      assert count == 0 || count >= 2;
      hide Holds, ValueOf, Shifted, ShiftRight;
      assert trimmed[..i + 1] == trimmed[..i] + [trimmed[i]];
      if count == 0 {
        SixBitsMore(trimmed[..i], trimmed[i], out, bits, count);
      } else {
        OneByteMore(trimmed[..i], trimmed[i], out, bits, count);
      }
      bits := Shifted(bits, value.value);
      count := count + 6;
      if count >= 8 {
        count := count - 8;
        out := out + [ShiftRight(bits, count) % 256];
      }
      i := i + 1;
    }
    assert trimmed[..i] == trimmed;
    BigEndianOfNumber(out);
    return Some(out);
  }

  // ---- RFC 4648 encodings -------------------------------------------------------------------------

  function Spelled(v: Sextet, url: bool): (c: char)
    ensures ValueOf(c) == Some(v) && c != '='
  {
    if v < 26 then ('A' as int + v) as char
    else if v < 52 then ('a' as int + (v - 26)) as char
    else if v < 62 then ('0' as int + (v - 52)) as char
    else if v == 62 then (if url then '-' else '+')
    else if url then '_' else '/'
  }

  /** Three bytes as four characters. */
  function Quad(a: byte, b: byte, c: byte, url: bool): string {
    [Spelled(a / 4, url), Spelled(a % 4 * 16 + b / 16, url), Spelled(b % 16 * 4 + c / 64, url), Spelled(c % 64, url)]
  }

  function Quads(bytes: seq<byte>, url: bool): string
    requires |bytes| % 3 == 0
  {
    if bytes == [] then "" else
      var n := |bytes| - 3;
      Quads(bytes[..n], url) + Quad(bytes[n], bytes[n + 1], bytes[n + 2], url)
  }

  /** The last one or two bytes, zero bits added up to a whole character. */
  function Rest(bytes: seq<byte>, url: bool): string
    requires |bytes| < 3
  {
    if |bytes| == 0 then ""
    else if |bytes| == 1 then Quad(bytes[0], 0, 0, url)[..2]
    else Quad(bytes[0], bytes[1], 0, url)[..3]
  }

  function Encoded(bytes: seq<byte>, url: bool): string {
    var whole := |bytes| - |bytes| % 3;
    Quads(bytes[..whole], url) + Rest(bytes[whole..], url)
  }

  function Padding(bytes: seq<byte>): string {
    if |bytes| % 3 == 1 then "==" else if |bytes| % 3 == 2 then "=" else ""
  }

  lemma QuadIsAnumber(text: string, a: byte, b: byte, c: byte, url: bool)
    requires Alphabetic(text)
    ensures
      var q := Quad(a, b, c, url);
      && Alphabetic(text + q) && Alphabetic(text + q[..2]) && Alphabetic(text + q[..3])
      && Number64(text + q) == 256 * (256 * (256 * Number64(text) + a) + b) + c
      && Number64(text + q[..3]) == 4 * (256 * (256 * Number64(text) + a) + b) + c / 64
      && Number64(text + q[..2]) == 16 * (256 * Number64(text) + a) + b / 16
  {
    var q := Quad(a, b, c, url);
    Number64Snoc(text, q[0]);
    Number64Snoc(text + [q[0]], q[1]);
    Number64Snoc(text + [q[0]] + [q[1]], q[2]);
    Number64Snoc(text + [q[0]] + [q[1]] + [q[2]], q[3]);
    assert text + q[..2] == text + [q[0]] + [q[1]];
    assert text + q[..3] == text + [q[0]] + [q[1]] + [q[2]];
    assert text + q == text + [q[0]] + [q[1]] + [q[2]] + [q[3]];
  }

  lemma {:induction false} ThreeBytesMore(bytes: seq<byte>)
    requires |bytes| >= 3
    ensures
      var n := |bytes| - 3;
      Number(bytes) == 256 * (256 * (256 * Number(bytes[..n]) + bytes[n]) + bytes[n + 1]) + bytes[n + 2]
  {
    var n := |bytes| - 3;
    NumberSnoc(bytes[..n], bytes[n]);
    NumberSnoc(bytes[..n] + [bytes[n]], bytes[n + 1]);
    NumberSnoc(bytes[..n] + [bytes[n]] + [bytes[n + 1]], bytes[n + 2]);
    assert bytes == bytes[..n] + [bytes[n]] + [bytes[n + 1]] + [bytes[n + 2]];
  }

  lemma {:induction false} QuadsSpellTheNumber(bytes: seq<byte>, url: bool)
    requires |bytes| % 3 == 0
    ensures var q := Quads(bytes, url); Alphabetic(q) && 6 * |q| == 8 * |bytes| && Number64(q) == Number(bytes)
  {
    if bytes != [] {
      var n := |bytes| - 3;
      QuadsSpellTheNumber(bytes[..n], url);
      QuadIsAnumber(Quads(bytes[..n], url), bytes[n], bytes[n + 1], bytes[n + 2], url);
      ThreeBytesMore(bytes);
    }
  }

  /** The bits of zero that the last character was filled up with, as a factor. */
  function Fill(bytes: seq<byte>): (n: nat)
    ensures n == 0 || n == 2 || n == 4
  {
    if |bytes| % 3 == 1 then 4 else if |bytes| % 3 == 2 then 2 else 0
  }

  lemma SmallFills(n: nat)
    ensures ShiftLeft(n, 0) == n && ShiftLeft(n, 2) == 4 * n && ShiftLeft(n, 4) == 16 * n
  {
    assert ShiftLeft(n, 1) == 2 * n && ShiftLeft(n, 2) == 4 * n && ShiftLeft(n, 3) == 8 * n;
  }

  /** `more` continues a text that spells `before` with the last bytes, and adds the fill. */
  predicate Continues(text: string, before: seq<byte>, rest: seq<byte>, more: string) {
    && Alphabetic(text + more) && 6 * |more| == 8 * |rest| + Fill(rest)
    && Number64(text + more) == ShiftLeft(Number(before + rest), Fill(rest))
  }

  lemma OneByteLeft(text: string, before: seq<byte>, b: byte, url: bool)
    requires Alphabetic(text) && Number64(text) == Number(before)
    ensures Continues(text, before, [b], Quad(b, 0, 0, url)[..2])
  {
    NumberSnoc(before, b);
    QuadIsAnumber(text, b, 0, 0, url);
    SmallFills(Number(before + [b]));
    hide Number, Number64, ShiftLeft, Alphabetic;
  }

  lemma TwoBytesLeft(text: string, before: seq<byte>, b: byte, c: byte, url: bool)
    requires Alphabetic(text) && Number64(text) == Number(before)
    ensures Continues(text, before, [b, c], Quad(b, c, 0, url)[..3])
  {
    assert before + [b, c] == before + [b] + [c];
    NumberSnoc(before, b);
    NumberSnoc(before + [b], c);
    QuadIsAnumber(text, b, c, 0, url);
    SmallFills(Number(before + [b, c]));
    hide Number, Number64, ShiftLeft, Alphabetic;
  }

  lemma NothingLeft(text: string, before: seq<byte>)
    requires Alphabetic(text) && Number64(text) == Number(before)
    ensures Continues(text, before, [], "")
  {
    assert text + "" == text && before + [] == before;
    SmallFills(Number(before));
  }

  lemma RestSpellsTheNumber(text: string, before: seq<byte>, rest: seq<byte>, url: bool)
    requires Alphabetic(text) && Number64(text) == Number(before) && |rest| < 3
    ensures Continues(text, before, rest, Rest(rest, url))
  {
    hide Number, Number64, Continues, Alphabetic, Quad;
    if |rest| == 0 {
      assert rest == [];
      NothingLeft(text, before);
    } else if |rest| == 1 {
      assert rest == [rest[0]];
      OneByteLeft(text, before, rest[0], url);
    } else {
      assert rest == [rest[0], rest[1]];
      TwoBytesLeft(text, before, rest[0], rest[1], url);
    }
  }

  /** The encoding is the bytes' number, shifted by the bits that were added. */
  lemma EncodingSpellsTheNumber(bytes: seq<byte>, url: bool)
    ensures
      var text := Encoded(bytes, url);
      && Alphabetic(text) && 6 * |text| == 8 * |bytes| + Fill(bytes)
      && Number64(text) == ShiftLeft(Number(bytes), Fill(bytes))
  {
    hide Number, Number64, ShiftLeft, Alphabetic, Quads, Rest;
    var whole := |bytes| - |bytes| % 3;
    var before, rest := bytes[..whole], bytes[whole..];
    QuadsSpellTheNumber(before, url);
    RestSpellsTheNumber(Quads(before, url), before, rest, url);
    assert bytes == before + rest;
  }

  lemma {:induction false} PaddingIsTrimmed(text: string, padding: string)
    requires text != "" ==> text[|text| - 1] != '='
    requires forall i :: 0 <= i < |padding| ==> padding[i] == '='
    ensures TrimEnd(text + padding) == text
  {
    if padding == "" {
      assert text + padding == text;
    } else {
      var shorter := padding[..|padding| - 1];
      assert (text + padding)[..|text + padding| - 1] == text + shorter;
      assert (text + padding)[|text + padding| - 1] == padding[|padding| - 1];
      PaddingIsTrimmed(text, shorter);
    }
  }

  lemma AlphabeticEndsWell(text: string)
    requires Alphabetic(text)
    ensures text != "" ==> text[|text| - 1] != '='
  {
    if text != "" {
      assert text[|text| - 1] in text;
    }
  }

  /** Either alphabet, padded or not: the bytes come back. */
  lemma EveryEncodingIsRead(bytes: seq<byte>, url: bool, padded: bool)
    ensures Decoded(Encoded(bytes, url) + (if padded then Padding(bytes) else "")) == Some(bytes)
  {
    hide Encoded, Number, Number64, BigEndian, ShiftLeft, ShiftRight, Alphabetic;
    var text := Encoded(bytes, url);
    EncodingSpellsTheNumber(bytes, url);
    AlphabeticEndsWell(text);
    PaddingIsTrimmed(text, if padded then Padding(bytes) else "");
    FillIsDropped(Number(bytes), Fill(bytes));
    BigEndianOfNumber(bytes);
  }

  lemma {:induction false} FillIsDropped(n: nat, fill: nat)
    ensures ShiftRight(ShiftLeft(n, fill), fill) == n
  {
    if fill > 0 {
      FillIsDropped(n, fill - 1);
    }
  }
}
