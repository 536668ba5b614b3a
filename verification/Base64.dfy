/** The three hand-written base64 loops (RFC 4648 sections 4 and 5): a padded chunk encoder, an unpadded url-safe
    bit-buffer encoder, and one lenient streaming decoder for both, over a 32-bit buffer that silently overflows. */
module Base64 {
  import opened DepositTypes

  newtype byte = x: int | 0 <= x < 256
  newtype sextet = x: int | 0 <= x < 64

  const U32 := 0x1_0000_0000

  /** `x << k` on a u32: the high bits are lost. */
  function Shl(x: nat, k: nat): (r: nat)
    ensures r < U32
  {
    x * Pow2(k) % U32
  }

  function Pow2(k: nat): (p: nat)
    ensures p > 0
  {
    if k == 0 then 1 else 2 * Pow2(k - 1)
  }

  // ---- Alphabets ----

  /** The alphabets of RFC 4648, sections 4 and 5: they differ in the last two symbols. */
  function Symbol(v: sextet, url: bool): char {
    if v < 26 then 'A' + v as char
    else if v < 52 then 'a' + (v - 26) as char
    else if v < 62 then '0' + (v - 52) as char
    else if v == 62 then (if url then '-' else '+')
    else (if url then '_' else '/')
  }

  /** The decoder's table, which knows both alphabets; nothing for any other byte. */
  function Lookup(c: char): Option<sextet> {
    if 'A' <= c <= 'Z' then Some((c as int - 'A' as int) as sextet)
    else if 'a' <= c <= 'z' then Some((c as int - 'a' as int + 26) as sextet)
    else if '0' <= c <= '9' then Some((c as int - '0' as int + 52) as sextet)
    else if c == '+' || c == '-' then Some(62)
    else if c == '/' || c == '_' then Some(63)
    else None
  }

  lemma LookupInvertsSymbol(v: sextet, url: bool)
    ensures Lookup(Symbol(v, url)) == Some(v) && !Skipped(Symbol(v, url))
  {
  }

  predicate Skipped(c: char) {
    c == '=' || c == '\n' || c == '\r'
  }

  // ---- The meaning: a byte sequence and its sextets are the same bits ----

  /** Bytes to sextets, `bits` of the bits in `rem` being still unsent. */
  function Sextets(bs: seq<byte>, rem: nat, bits: nat): seq<sextet>
    requires (bits == 0 && rem == 0) || (bits == 2 && rem < 4) || (bits == 4 && rem < 16)
    decreases |bs|
  {
    if bs == [] then
      if bits == 0 then [] else if bits == 2 then [(rem * 16) as sextet] else [(rem * 4) as sextet]
    else
      var v := rem * 256 + bs[0] as int;
      if bits == 0 then [(v / 4) as sextet] + Sextets(bs[1..], v % 4, 2)
      else if bits == 2 then [(v / 16) as sextet] + Sextets(bs[1..], v % 16, 4)
      else [(v / 64) as sextet, (v % 64) as sextet] + Sextets(bs[1..], 0, 0)
  }

  /** Sextets to bytes, `bits` of the bits in `rem` being left over from before. */
  function Bytes(vs: seq<sextet>, rem: nat, bits: nat): seq<byte>
    requires (bits == 0 && rem == 0) || (bits == 2 && rem < 4) || (bits == 4 && rem < 16) || (bits == 6 && rem < 64)
    decreases |vs|
  {
    if vs == [] then []
    else
      var v := rem * 64 + vs[0] as int;
      if bits == 0 then Bytes(vs[1..], v, 6)
      else if bits == 2 then [v as byte] + Bytes(vs[1..], 0, 0)
      else if bits == 4 then [(v / 4) as byte] + Bytes(vs[1..], v % 4, 2)
      else [(v / 16) as byte] + Bytes(vs[1..], v % 16, 4)
  }

  /** One more sextet at the front. */
  lemma BytesOf(x: sextet, vs: seq<sextet>, rem: nat, bits: nat)
    requires (bits == 0 && rem == 0) || (bits == 2 && rem < 4) || (bits == 4 && rem < 16) || (bits == 6 && rem < 64)
    ensures var v := rem * 64 + x as int;
      Bytes([x] + vs, rem, bits) ==
        if bits == 0 then Bytes(vs, v, 6)
        else if bits == 2 then [v as byte] + Bytes(vs, 0, 0)
        else if bits == 4 then [(v / 4) as byte] + Bytes(vs, v % 4, 2)
        else [(v / 16) as byte] + Bytes(vs, v % 16, 4)
  {
    assert ([x] + vs)[1..] == vs;
  }

  /** Decoding what is encoded gives the bytes back: from a byte boundary, and from the two places inside a byte. */
  lemma {:induction false} BytesInvertSextets(bs: seq<byte>)
    ensures Bytes(Sextets(bs, 0, 0), 0, 0) == bs
    decreases |bs|
  {
    if bs != [] {
      var b := bs[0] as int;
      BytesOf((b / 4) as sextet, Sextets(bs[1..], b % 4, 2), 0, 0);
      AfterSixBits(bs[1..], b / 4, b % 4);
      assert [bs[0]] + bs[1..] == bs;
    }
  }

  lemma {:induction false} AfterSixBits(bs: seq<byte>, high: nat, low: nat)
    requires high < 64 && low < 4
    ensures Bytes(Sextets(bs, low, 2), high, 6) == [(high * 4 + low) as byte] + bs
    decreases |bs|
  {
    if bs == [] {
      OneSextetLeft(high, low);
    } else {
      var v := low * 256 + bs[0] as int;
      NextSextet(bs[0], Sextets(bs[1..], v % 16, 4), high, low);
      AfterFourBits(bs[1..], v / 16 % 16, v % 16);
      SecondByte(high, low, bs[0] as int);
      hide Bytes;
      assert [bs[0]] + bs[1..] == bs;
    }
  }

  lemma OneSextetLeft(high: nat, low: nat)
    requires high < 64 && low < 4
    ensures Bytes(Sextets([], low, 2), high, 6) == [(high * 4 + low) as byte]
  {
    BytesOf((low * 16) as sextet, [], high, 6);
    assert [(low * 16) as sextet] + [] == [(low * 16) as sextet];
    assert (high * 64 + low * 16) / 16 == high * 4 + low;
  }

  lemma NextSextet(b: byte, rest: seq<sextet>, high: nat, low: nat)
    requires high < 64 && low < 4
    ensures var v := low * 256 + b as int;
      v / 16 < 64 && Bytes([(v / 16) as sextet] + rest, high, 6) == [(high * 4 + low) as byte] + Bytes(rest, v / 16 % 16, 4)
  {
    var v := low * 256 + b as int;
    SecondByte(high, low, b as int);
    BytesOf((v / 16) as sextet, rest, high, 6);
    hide Bytes;
  }

  lemma {:induction false} AfterFourBits(bs: seq<byte>, high: nat, low: nat)
    requires high < 16 && low < 16
    ensures Bytes(Sextets(bs, low, 4), high, 4) == [(high * 16 + low) as byte] + bs
    decreases |bs|
  {
    if bs == [] {
      BytesOf((low * 4) as sextet, [], high, 4);
      assert [(low * 4) as sextet] + [] == [(low * 4) as sextet];
      assert (high * 64 + low * 4) / 4 == high * 16 + low;
    } else {
      LastTwoSextets(bs[0], Sextets(bs[1..], 0, 0), high, low);
      BytesInvertSextets(bs[1..]);
      assert [bs[0]] + bs[1..] == bs;
    }
  }

  lemma LastTwoSextets(b: byte, rest: seq<sextet>, high: nat, low: nat)
    requires high < 16 && low < 16
    ensures var v := low * 256 + b as int;
      Bytes([(v / 64) as sextet, (v % 64) as sextet] + rest, high, 4)
        == [(high * 16 + low) as byte] + ([b] + Bytes(rest, 0, 0))
  {
    var v := low * 256 + b as int;
    ThirdByte(high, low, b as int);
    var x, y := (v / 64) as sextet, (v % 64) as sextet;
    BytesOf(x, [y] + rest, high, 4);
    BytesOf(y, rest, (high * 64 + v / 64) % 4, 2);
    hide Bytes;
    assert [x, y] + rest == [x] + ([y] + rest);
  }

  lemma SecondByte(high: nat, low: nat, b: nat)
    requires high < 64 && low < 4 && b < 256
    ensures var v := low * 256 + b;
      v / 16 < 64 && (high * 64 + v / 16) / 16 == high * 4 + low && (high * 64 + v / 16) % 16 == v / 16 % 16
      && v / 16 % 16 * 16 + v % 16 == b
  {
    assert (low * 256 + b) / 16 == low * 16 + b / 16;
  }

  lemma ThirdByte(high: nat, low: nat, b: nat)
    requires high < 16 && low < 16 && b < 256
    ensures var v := low * 256 + b;
      v / 64 < 64 && (high * 64 + v / 64) / 4 == high * 16 + low && (high * 64 + v / 64) % 4 * 64 + v % 64 == b
  {
    assert (low * 256 + b) / 64 == low * 4 + b / 64;
  }
  // ---- Text ----

  function Text(vs: seq<sextet>, url: bool): (s: string)
    ensures |s| == |vs|
  {
    if vs == [] then "" else [Symbol(vs[0], url)] + Text(vs[1..], url)
  }

  function Unpadded(bs: seq<byte>): string {
    Text(Sextets(bs, 0, 0), true)
  }

  function Pad(n: nat): string {
    if n % 3 == 0 then "" else if n % 3 == 1 then "==" else "="
  }

  function Padded(bs: seq<byte>): string {
    Text(Sextets(bs, 0, 0), false) + Pad(|bs|)
  }

  /** The sextets a text stands for: padding and line ends are skipped, anything unknown is an error. */
  function Values(data: string): Option<seq<sextet>> {
    if data == "" then Some([])
    else if Skipped(data[0]) then Values(data[1..])
    else if Lookup(data[0]).None? || Values(data[1..]).None? then None
    else Some([Lookup(data[0]).value] + Values(data[1..]).value)
  }

  function Decoded(data: string): Option<seq<byte>> {
    var vs := Values(data);
    if vs.Some? then Some(Bytes(vs.value, 0, 0)) else None
  }

  lemma {:induction false} ValuesOfText(vs: seq<sextet>, url: bool, pad: string)
    requires forall i :: 0 <= i < |pad| ==> pad[i] == '='
    ensures Values(Text(vs, url) + pad) == Some(vs)
    decreases |vs|, |pad|
  {
    var data := Text(vs, url) + pad;
    if vs != [] {
      LookupInvertsSymbol(vs[0], url);
      assert data[1..] == Text(vs[1..], url) + pad;
      ValuesOfText(vs[1..], url, pad);
      assert [vs[0]] + vs[1..] == vs;
    } else if pad != "" {
      assert data == pad;
      ValuesOfText(vs, url, pad[1..]);
      assert Text(vs, url) + pad[1..] == pad[1..];
    }
  }

  /** The decoder inverts both encoders, on every byte sequence. */
  lemma DecodeInvertsEncode(bs: seq<byte>)
    ensures Decoded(Padded(bs)) == Some(bs)
    ensures Decoded(Unpadded(bs)) == Some(bs)
  {
    BytesInvertSextets(bs);
    ValuesOfText(Sextets(bs, 0, 0), false, Pad(|bs|));
    ValuesOfText(Sextets(bs, 0, 0), true, "");
    assert Unpadded(bs) + "" == Unpadded(bs);
  }

  lemma {:induction false} SextetCount(bs: seq<byte>, rem: nat, bits: nat)
    requires (bits == 0 && rem == 0) || (bits == 2 && rem < 4) || (bits == 4 && rem < 16)
    ensures |Sextets(bs, rem, bits)| == (8 * |bs| + bits + 5) / 6
    decreases |bs|
  {
    if bs != [] {
      var v := rem * 256 + bs[0] as int;
      if bits == 0 { SextetCount(bs[1..], v % 4, 2); }
      else if bits == 2 { SextetCount(bs[1..], v % 16, 4); }
      else { SextetCount(bs[1..], 0, 0); }
    }
  }

  /** 4 characters for every 3 bytes begun, padded; 8 bits in 6-bit symbols, unpadded. */
  lemma EncodedLengths(bs: seq<byte>)
    ensures |Padded(bs)| == 4 * ((|bs| + 2) / 3)
    ensures |Unpadded(bs)| == (8 * |bs| + 5) / 6
  {
    SextetCount(bs, 0, 0);
  }

  predicate LooksLikeKey(s: string) {
    |s| == 44 && s[43] == '='
  }

  /** The shape test for a stored key lets through what encodes 32 bytes, and also what encodes 31. */
  lemma LooksLikeKeyExactly(bs: seq<byte>)
    ensures LooksLikeKey(Padded(bs)) <==> |bs| == 32 || |bs| == 31
  {
    EncodedLengths(bs);
    var vs := Sextets(bs, 0, 0);
    if |Padded(bs)| == 44 && Pad(|bs|) == "" {
      TextHasNoPadding(vs, false, 43);
    }
  }

  lemma {:induction false} TextHasNoPadding(vs: seq<sextet>, url: bool, i: nat)
    requires i < |vs|
    ensures Text(vs, url)[i] != '='
  {
    if i > 0 { TextHasNoPadding(vs[1..], url, i - 1); }
  }

  // ---- The 32-bit buffer ----

  /** What survives the overflow: the low twelve bits, which is all the loops ever look at. */
  lemma ShiftBySix(buffer: nat, v: nat)
    requires buffer < U32 && v < 64
    ensures Shl(buffer, 6) + v < U32
    ensures exists k :: Shl(buffer, 6) + v == buffer % 64 * 64 + v + 4096 * k
  {
    Shl6(buffer);
    var lost := buffer * 64 / U32;
    assert buffer == 64 * (buffer / 64) + buffer % 64;
    assert buffer * 64 % U32 == buffer * 64 - U32 * lost;
    assert Shl(buffer, 6) + v == buffer % 64 * 64 + v + 4096 * (buffer / 64 - 0x10_0000 * lost);
  }

  lemma Shl6(buffer: nat)
    ensures Shl(buffer, 6) == buffer * 64 % U32
  {
    assert Pow2(6) == 64 by { assert Pow2(3) == 8; }
  }

  lemma Quarter(x: int, y: int, k: int)
    requires x == y + 4096 * k && 0 <= y < 4096
    ensures x % 4 == y % 4 && x / 4 % 256 == y / 4 % 256
  {
    assert x / 4 == y / 4 + 1024 * k;
  }

  lemma Sixteenth(x: int, y: int, k: int)
    requires x == y + 4096 * k && 0 <= y < 4096
    ensures x % 16 == y % 16 && x / 16 % 256 == y / 16
  {
    assert x / 16 == y / 16 + 256 * k;
  }

  lemma Whole(x: int, y: int, k: int)
    requires x == y + 4096 * k && 0 <= y < 4096
    ensures x % 256 == y % 256
  {
    var q, r := y / 256, y % 256;
    assert x == 256 * (q + 16 * k) + r;
  }

  lemma Six(x: int, y: int, k: int)
    requires x == y + 4096 * k && 0 <= y < 4096
    ensures x % 64 == y % 64
  {
    var q, r := y / 64, y % 64;
    assert x == 64 * (q + 64 * k) + r;
  }

  predicate Split(bits: nat) {
    bits == 0 || bits == 2 || bits == 4 || bits == 6
  }

  lemma Powers()
    ensures Pow2(0) == 1 && Pow2(2) == 4 && Pow2(4) == 16 && Pow2(6) == 64
  {
    assert Pow2(3) == 8;
  }

  /** One symbol enters the 32-bit buffer: what leaves it, and what stays in its low bits, is as if it never overflowed. */
  lemma SymbolEnters(buffer: nat, v: nat, bits: nat)
    requires buffer < U32 && v < 64 && Split(bits)
    ensures var b', w := Shl(buffer, 6) + v, buffer % Pow2(bits) * 64 + v;
      && b' < U32
      && if bits == 0 then b' % Pow2(6) == w < 64
         else var m := Pow2(bits - 2); b' / m % 256 == w / m < 256 && b' % m == w % m
  {
    ShiftBySix(buffer, v);
    Powers();
    var b' := Shl(buffer, 6) + v;
    var y := buffer % 64 * 64 + v;
    var k :| b' == y + 4096 * k;
    hide Shl, Pow2;
    if bits == 0 {
      Six(b', y, k);
    } else if bits == 2 {
      Whole(b', y, k);
      TwoBits(buffer, v);
    } else if bits == 4 {
      Quarter(b', y, k);
      FourBits(buffer, v);
    } else {
      Sixteenth(b', y, k);
    }
  }

  lemma ModOfMod(b: nat)
    ensures b % 64 % 4 == b % 4 && b % 64 % 16 == b % 16
  {
    var q, x := b / 64, b % 64;
    assert b == 64 * q + x;
    assert b == 4 * (16 * q + x / 4) + x % 4;
    assert b == 16 * (4 * q + x / 16) + x % 16;
  }

  lemma TwoBits(buffer: nat, v: nat)
    requires v < 64
    ensures (buffer % 64 * 64 + v) % 256 == buffer % 4 * 64 + v
  {
    ModOfMod(buffer);
    var x := buffer % 64;
    var p, s := x / 4, x % 4;
    assert x * 64 + v == 256 * p + (s * 64 + v);
  }

  lemma FourBits(buffer: nat, v: nat)
    requires v < 64
    ensures var y, w := buffer % 64 * 64 + v, buffer % 16 * 64 + v;
      y / 4 % 256 == w / 4 < 256 && y % 4 == w % 4
  {
    ModOfMod(buffer);
    var x := buffer % 64;
    var p, s := x / 16, x % 16;
    SplitAt1024(p, s * 64 + v);
  }

  lemma SplitAt1024(p: nat, w: nat)
    requires w < 1024
    ensures (1024 * p + w) / 4 % 256 == w / 4 < 256 && (1024 * p + w) % 4 == w % 4
  {
    var q, r := w / 4, w % 4;
    assert 1024 * p + w == 4 * (256 * p + q) + r;
  }
  /** `Bytes` in the decoder's own terms. */
  lemma BytesByPowers(x: sextet, vs: seq<sextet>, rem: nat, bits: nat)
    requires Split(bits) && rem < Pow2(bits)
    ensures var v := rem * 64 + x as int;
      Bytes([x] + vs, rem, bits) ==
        if bits == 0 then Bytes(vs, v, 6)
        else var m := Pow2(bits - 2); if v / m < 256 then [(v / m) as byte] + Bytes(vs, v % m, bits - 2) else []
  {
    Powers();
    BytesOf(x, vs, rem, bits);
    hide Bytes;
    if bits == 2 {
      assert rem * 64 + x as int < 256;
    }
  }

  /** What is still to be decoded, with `rem` left over. */
  function Rest(data: string, rem: nat, bits: nat): Option<seq<byte>>
    requires Split(bits) && rem < Pow2(bits)
  {
    Powers();
    if Values(data).None? then None else Some(Bytes(Values(data).value, rem, bits))
  }

  function Then(out: seq<byte>, more: Option<seq<byte>>): Option<seq<byte>> {
    if more.None? then None else Some(out + more.value)
  }

  lemma NoneForNone(out: seq<byte>)
    ensures Then(out, None) == None
  {
  }

  lemma ThenLaws(a: seq<byte>, b: seq<byte>, x: Option<seq<byte>>)
    ensures Then([], x) == x && Then(a, Some([])) == Some(a) && Then(a, Then(b, x)) == Then(a + b, x)
  {
    assert a + [] == a;
    if x.Some? {
      assert [] + x.value == x.value;
      assert a + (b + x.value) == (a + b) + x.value;
    }
  }

  lemma RestOf(c: char, tail: string, rem: nat, bits: nat)
    requires Split(bits) && rem < Pow2(bits)
    ensures Skipped(c) ==> Rest([c] + tail, rem, bits) == Rest(tail, rem, bits)
    ensures !Skipped(c) && Lookup(c).None? ==> Rest([c] + tail, rem, bits) == None
    ensures !Skipped(c) && Lookup(c).Some? ==>
      var v := rem * 64 + Lookup(c).value as int;
      if bits == 0 then v < Pow2(6) && Rest([c] + tail, rem, bits) == Rest(tail, v, 6)
      else var m := Pow2(bits - 2);
        v / m < 256 && Rest([c] + tail, rem, bits) == Then([(v / m) as byte], Rest(tail, v % m, bits - 2))
  {
    Powers();
    assert ([c] + tail)[1..] == tail;
    if !Skipped(c) && Lookup(c).Some? {
      WideEnough(rem, Lookup(c).value as nat, bits);
      if Values(tail).Some? {
        BytesByPowers(Lookup(c).value, Values(tail).value, rem, bits);
      }
    }
    hide Bytes, Pow2;
  }

  lemma WideEnough(rem: nat, v: nat, bits: nat)
    requires Split(bits) && rem < Pow2(bits) && v < 64
    ensures if bits == 0 then rem * 64 + v < Pow2(6) else (rem * 64 + v) / Pow2(bits - 2) < 256
  {
    Powers();
  }

  lemma RestOfNothing(rem: nat, bits: nat)
    requires Split(bits) && rem < Pow2(bits)
    ensures Rest("", rem, bits) == Some([])
  {
    Powers();
  }

  method DecodeBase64(data: string) returns (r: Option<seq<byte>>)
    ensures r == Decoded(data)
  {
    Powers();
    assert Rest(data, 0, 0) == Decoded(data);
    ThenLaws([], [], Decoded(data));
    assert 0 % Pow2(0) == 0;
    hide Pow2, Shl, Rest, Lookup, Skipped, Decoded, Then;
    var out: seq<byte> := [];
    var buffer: nat, bits: nat := 0, 0;
    var i := 0;
    assert data[0..] == data;
    while i < |data|
      invariant i <= |data| && Split(bits) && buffer < U32 && buffer % Pow2(bits) < Pow2(bits)
      invariant Decoded(data) == Then(out, Rest(data[i..], buffer % Pow2(bits), bits))
    {
      var c := data[i];
      assert data[i..] == [c] + data[i + 1..];
      RestOf(c, data[i + 1..], buffer % Pow2(bits), bits);
      i := i + 1;
      if Skipped(c) { continue; }
      var value := Lookup(c);
      if value.None? {
        NoneForNone(out);
        return None;
      }
      SymbolEnters(buffer, value.value as nat, bits);
      buffer := Shl(buffer, 6) + value.value as nat;
      bits := bits + 6;
      if bits >= 8 {
        bits := bits - 8;
        ThenLaws(out, [(buffer / Pow2(bits) % 256) as byte], Rest(data[i..], buffer % Pow2(bits), bits));
        out := out + [(buffer / Pow2(bits) % 256) as byte];
      }
    }
    ThenLaws(out, [], None);
    RestOfNothing(buffer % Pow2(bits), bits);
    assert data[i..] == "";
    r := Some(out);
  }
  // ---- The chunk encoder ----

  /** The four six-bit fields of a 24-bit group, as the bit-by-bit sextets of its three bytes. */
  lemma Group(b0: nat, b1: nat, b2: nat)
    requires b0 < 256 && b1 < 256 && b2 < 256
    ensures var t, u := b0 * 65536 + b1 * 256 + b2, b0 % 4 * 256 + b1;
      && t / 262144 % 64 == b0 / 4
      && t / 4096 % 64 == u / 16
      && t / 64 % 64 == (u % 16 * 256 + b2) / 64
      && t % 64 == (u % 16 * 256 + b2) % 64
  {
    var t, u := b0 * 65536 + b1 * 256 + b2, b0 % 4 * 256 + b1;
    var w := u % 16 * 256 + b2;
    assert u < 1024 && w < 4096;
    SplitByte(b0, u, w, b1, b2);
    Field18(b0 / 4, b0 % 4 * 65536 + b1 * 256 + b2);
    Field12(b0 / 4, u / 16, w);
    Field6(64 * (b0 / 4) + u / 16, w / 64, w % 64);
  }

  lemma SplitByte(b0: nat, u: nat, w: nat, b1: nat, b2: nat)
    requires u == b0 % 4 * 256 + b1 && w == u % 16 * 256 + b2
    ensures var t := b0 * 65536 + b1 * 256 + b2;
      && t == 262144 * (b0 / 4) + (b0 % 4 * 65536 + b1 * 256 + b2)
      && t == 4096 * (64 * (b0 / 4) + u / 16) + w
      && t == 64 * (64 * (64 * (b0 / 4) + u / 16) + w / 64) + w % 64
  {
    var q, r := b0 / 4, b0 % 4;
    assert b0 == 4 * q + r;
    var x, y := u / 16, u % 16;
    assert u == 16 * x + y;
    var m, n := w / 64, w % 64;
    assert w == 64 * m + n;
  }

  lemma Field18(f: nat, rest: nat)
    requires f < 64 && rest < 262144
    ensures (262144 * f + rest) / 262144 % 64 == f
  {
  }

  lemma Field12(above: nat, f: nat, rest: nat)
    requires f < 64 && rest < 4096
    ensures (4096 * (64 * above + f) + rest) / 4096 % 64 == f
  {
    assert (4096 * (64 * above + f) + rest) / 4096 == 64 * above + f;
    MiddleField(above, f);
  }

  lemma Field6(above: nat, f: nat, rest: nat)
    requires f < 64 && rest < 64
    ensures (64 * (64 * above + f) + rest) / 64 % 64 == f
    ensures (64 * (64 * above + f) + rest) % 64 == rest
  {
    assert (64 * (64 * above + f) + rest) / 64 == 64 * above + f;
    MiddleField(above, f);
    MiddleField(64 * above + f, rest);
  }

  lemma MiddleField(q: nat, r: nat)
    requires r < 64
    ensures (64 * q + r) % 64 == r
  {
  }

  /** The symbols of one group, as the encoder computes them. */
  function Chunk(b0: byte, b1: byte, b2: byte, n: nat): string
    requires 1 <= n <= 3
  {
    var t := b0 as int * 65536 + b1 as int * 256 + b2 as int;
    [Symbol((t / 262144 % 64) as sextet, false), Symbol((t / 4096 % 64) as sextet, false),
     if n > 1 then Symbol((t / 64 % 64) as sextet, false) else '=',
     if n > 2 then Symbol((t % 64) as sextet, false) else '=']
  }

  lemma TextOfTwo(x: sextet, y: sextet, vs: seq<sextet>, url: bool)
    ensures Text([x, y] + vs, url) == [Symbol(x, url), Symbol(y, url)] + Text(vs, url)
  {
    assert ([x, y] + vs)[1..] == [y] + vs;
    assert ([y] + vs)[1..] == vs;
  }

  /** One more byte at the front. */
  lemma SextetsOf(b: byte, bs: seq<byte>, rem: nat, bits: nat)
    requires (bits == 0 && rem == 0) || (bits == 2 && rem < 4) || (bits == 4 && rem < 16)
    ensures var v := rem * 256 + b as int;
      Sextets([b] + bs, rem, bits) ==
        if bits == 0 then [(v / 4) as sextet] + Sextets(bs, v % 4, 2)
        else if bits == 2 then [(v / 16) as sextet] + Sextets(bs, v % 16, 4)
        else [(v / 64) as sextet, (v % 64) as sextet] + Sextets(bs, 0, 0)
  {
    assert ([b] + bs)[1..] == bs;
  }

  // The four fields of a group, taken from its bytes as they come.

  function Field0(b0: byte): sextet {
    (b0 as int / 4) as sextet
  }

  function Field1(b0: byte, b1: byte): sextet {
    ((b0 as int % 4 * 256 + b1 as int) / 16) as sextet
  }

  function Field2(b1: byte, b2: byte): sextet {
    ((b1 as int % 16 * 256 + b2 as int) / 64) as sextet
  }

  function Field3(b2: byte): sextet {
    (b2 as int % 64) as sextet
  }

  lemma Fields(b0: byte, b1: byte, b2: byte)
    ensures var t := b0 as int * 65536 + b1 as int * 256 + b2 as int;
      && t / 262144 % 64 == Field0(b0) as int && t / 4096 % 64 == Field1(b0, b1) as int
      && t / 64 % 64 == Field2(b1, b2) as int && t % 64 == Field3(b2) as int
  {
    Group(b0 as int, b1 as int, b2 as int);
    SecondRemainder(b0, b1);
    ThirdRemainder(b1, b2);
  }

  lemma SecondRemainder(b0: byte, b1: byte)
    ensures (b0 as int % 4 * 256 + b1 as int) % 16 == b1 as int % 16
  {
    var q, r := b1 as int / 16, b1 as int % 16;
    assert b0 as int % 4 * 256 + b1 as int == 16 * (b0 as int % 4 * 16 + q) + r;
  }

  lemma ThirdRemainder(b1: byte, b2: byte)
    ensures (b1 as int % 16 * 256 + b2 as int) % 64 == b2 as int % 64
  {
    var q, r := b2 as int / 64, b2 as int % 64;
    assert b1 as int % 16 * 256 + b2 as int == 64 * (b1 as int % 16 * 4 + q) + r;
  }

  lemma FirstSextet(b0: byte, bs: seq<byte>)
    ensures Sextets([b0] + bs, 0, 0) == [Field0(b0)] + Sextets(bs, b0 as int % 4, 2)
  {
    SextetsOf(b0, bs, 0, 0);
    hide Sextets;
  }

  lemma SecondSextet(b0: byte, b1: byte, bs: seq<byte>)
    ensures Sextets([b1] + bs, b0 as int % 4, 2) == [Field1(b0, b1)] + Sextets(bs, b1 as int % 16, 4)
  {
    SextetsOf(b1, bs, b0 as int % 4, 2);
    SecondRemainder(b0, b1);
    hide Sextets;
  }

  lemma ThirdSextets(b1: byte, b2: byte, bs: seq<byte>)
    ensures Sextets([b2] + bs, b1 as int % 16, 4) == [Field2(b1, b2), Field3(b2)] + Sextets(bs, 0, 0)
  {
    SextetsOf(b2, bs, b1 as int % 16, 4);
    ThirdRemainder(b1, b2);
    hide Sextets;
  }

  lemma SextetsOfThree(b0: byte, b1: byte, b2: byte, bs: seq<byte>)
    ensures Sextets([b0] + ([b1] + ([b2] + bs)), 0, 0)
      == [Field0(b0)] + ([Field1(b0, b1)] + ([Field2(b1, b2), Field3(b2)] + Sextets(bs, 0, 0)))
  {
    hide *;
    FirstSextet(b0, [b1] + ([b2] + bs));
    SecondSextet(b0, b1, [b2] + bs);
    ThirdSextets(b1, b2, bs);
  }

  lemma ChunkFields(b0: byte, b1: byte, b2: byte, n: nat)
    requires 1 <= n <= 3
    ensures Chunk(b0, b1, b2, n) ==
      [Symbol(Field0(b0), false), Symbol(Field1(b0, b1), false)]
      + [if n > 1 then Symbol(Field2(b1, b2), false) else '=', if n > 2 then Symbol(Field3(b2), false) else '=']
  {
    Fields(b0, b1, b2);
    hide Symbol, Field0, Field1, Field2, Field3;
  }

  lemma FullChunk(b0: byte, b1: byte, b2: byte, bs: seq<byte>)
    ensures Padded([b0, b1, b2] + bs) == Chunk(b0, b1, b2, 3) + Padded(bs)
  {
    SextetsOfThree(b0, b1, b2, bs);
    ChunkFields(b0, b1, b2, 3);
    PadPeriod(|bs|);
    hide Sextets, Text, Symbol, Field0, Field1, Field2, Field3, Chunk, Pad;
    var x0, x1, x2, x3 := Field0(b0), Field1(b0, b1), Field2(b1, b2), Field3(b2);
    TextOfFour(x0, x1, x2, x3, Sextets(bs, 0, 0));
    var rest := Text(Sextets(bs, 0, 0), false);
    assert [b0] + ([b1] + ([b2] + bs)) == [b0, b1, b2] + bs;
    Regroup([Symbol(x0, false), Symbol(x1, false)], [Symbol(x2, false), Symbol(x3, false)], rest, Pad(|bs|));
  }

  lemma TextOfFour(x0: sextet, x1: sextet, x2: sextet, x3: sextet, vs: seq<sextet>)
    ensures Text([x0] + ([x1] + ([x2, x3] + vs)), false)
      == [Symbol(x0, false), Symbol(x1, false)] + ([Symbol(x2, false), Symbol(x3, false)] + Text(vs, false))
  {
    hide *;
    assert [x0] + ([x1] + ([x2, x3] + vs)) == [x0, x1] + ([x2, x3] + vs);
    TextOfTwo(x0, x1, [x2, x3] + vs, false);
    TextOfTwo(x2, x3, vs, false);
  }

  lemma Regroup(a: string, b: string, c: string, d: string)
    ensures (a + (b + c)) + d == (a + b) + (c + d)
  {
  }

  lemma PadPeriod(n: nat)
    ensures Pad(n + 3) == Pad(n)
  {
  }

  lemma OpenTwoBits(b0: byte)
    ensures Sextets([], b0 as int % 4, 2) == [Field1(b0, 0)]
  {
    assert (b0 as int % 4 * 256 + 0) / 16 == b0 as int % 4 * 16;
  }

  lemma OpenFourBits(b1: byte)
    ensures Sextets([], b1 as int % 16, 4) == [Field2(b1, 0)]
  {
    assert (b1 as int % 16 * 256 + 0) / 64 == b1 as int % 16 * 4;
  }

  lemma LastByte(b0: byte)
    ensures Padded([b0]) == Chunk(b0, 0, 0, 1)
  {
    FirstSextet(b0, []);
    OpenTwoBits(b0);
    ChunkFields(b0, 0, 0, 1);
    hide Sextets, Symbol, Chunk, Field0, Field1, Field2;
    assert [b0] + [] == [b0];
    assert [Field0(b0), Field1(b0, 0)] + [] == [Field0(b0)] + [Field1(b0, 0)];
    TextOfTwo(Field0(b0), Field1(b0, 0), [], false);
  }

  lemma LastTwoBytes(b0: byte, b1: byte)
    ensures Padded([b0, b1]) == Chunk(b0, b1, 0, 2)
  {
    FirstSextet(b0, [b1]);
    SecondSextet(b0, b1, []);
    OpenFourBits(b1);
    ChunkFields(b0, b1, 0, 2);
    hide Sextets, Symbol, Field0, Field1, Field2, Chunk;
    var x0, x1, x2 := Field0(b0), Field1(b0, b1), Field2(b1, 0);
    assert [b1] + [] == [b1] && [b0] + [b1] == [b0, b1];
    assert [x0, x1] + [x2] == [x0] + ([x1] + [x2]);
    TextOfTwo(x0, x1, [x2], false);
    assert Text([x2], false) == [Symbol(x2, false)];
  }

  /** What is left of the input at a group boundary. */
  function Leftover(bytes: seq<byte>, i: nat): (n: nat)
    requires i < |bytes|
    ensures 1 <= n <= 3
  {
    if |bytes| - i < 3 then |bytes| - i else 3
  }

  function ByteOrZero(bytes: seq<byte>, i: nat): byte {
    if i < |bytes| then bytes[i] else 0
  }

  lemma NextChunk(bytes: seq<byte>, i: nat)
    requires i < |bytes|
    ensures Padded(bytes[i..]) ==
      Chunk(bytes[i], ByteOrZero(bytes, i + 1), ByteOrZero(bytes, i + 2), Leftover(bytes, i)) + Padded(bytes[i + Leftover(bytes, i)..])
  {
    NothingLeft();
    hide Padded, Chunk;
    var n := Leftover(bytes, i);
    if n == 3 {
      FullChunk(bytes[i], bytes[i + 1], bytes[i + 2], bytes[i + 3..]);
      assert bytes[i..] == [bytes[i], bytes[i + 1], bytes[i + 2]] + bytes[i + 3..];
    } else if n == 2 {
      LastTwoBytes(bytes[i], bytes[i + 1]);
      assert bytes[i..] == [bytes[i], bytes[i + 1]] && bytes[i + 2..] == [];
    } else {
      LastByte(bytes[i]);
      assert bytes[i..] == [bytes[i]] && bytes[i + 1..] == [];
    }
  }

  lemma FourPushes(out: string, a: char, b: char, c: char, d: char, rest: string)
    ensures out + ([a, b, c, d] + rest) == (out + [a] + [b] + [c] + [d]) + rest
  {
  }

  method EncodeBase64(bytes: seq<byte>) returns (out: string)
    ensures out == Padded(bytes)
  {
    hide Padded, Symbol;
    NothingLeft();
    out := "";
    var i := 0;
    assert bytes[0..] == bytes && out + Padded(bytes) == Padded(bytes);
    while i < |bytes|
      invariant i <= |bytes| && out + Padded(bytes[i..]) == Padded(bytes)
    {
      var n := Leftover(bytes, i);
      var triple := bytes[i] as int * 65536 + ByteOrZero(bytes, i + 1) as int * 256 + ByteOrZero(bytes, i + 2) as int;
      var c0, c1 := Symbol((triple / 262144 % 64) as sextet, false), Symbol((triple / 4096 % 64) as sextet, false);
      var c2 := if n > 1 then Symbol((triple / 64 % 64) as sextet, false) else '=';
      var c3 := if n > 2 then Symbol((triple % 64) as sextet, false) else '=';
      NextChunk(bytes, i);
      assert Chunk(bytes[i], ByteOrZero(bytes, i + 1), ByteOrZero(bytes, i + 2), n) == [c0, c1, c2, c3];
      FourPushes(out, c0, c1, c2, c3, Padded(bytes[i + n..]));
      out := out + [c0] + [c1] + [c2] + [c3];
      i := i + n;
    }
    assert bytes[i..] == [] && out + "" == out;
  }

  lemma NothingLeft()
    ensures Padded([]) == ""
  {
  }

  // ---- The bit-buffer encoder ----

  lemma ShiftByEight(buffer: nat, b: nat)
    requires buffer < U32 && b < 256
    ensures Shl(buffer, 8) + b < U32
    ensures exists k :: Shl(buffer, 8) + b == buffer % 16 * 256 + b + 4096 * k
  {
    assert Pow2(8) == 256 by { assert Pow2(4) == 16; }
    var lost := buffer * 256 / U32;
    assert buffer == 16 * (buffer / 16) + buffer % 16;
    assert buffer * 256 % U32 == buffer * 256 - U32 * lost;
    assert Shl(buffer, 8) + b == buffer % 16 * 256 + b + 4096 * (buffer / 16 - 0x10_0000 * lost);
  }

  /** The text still to come: `bits` bits of `rem` are unsent, up to two symbols of them complete. */
  function ToCome(bs: seq<byte>, rem: nat, bits: nat): string
    requires bits % 2 == 0 && bits <= 12 && rem < Pow2(bits)
    decreases bits
  {
    Powers12();
    if bits >= 6 then
      TopSix(rem, bits);
      ModBelow(rem, bits - 6);
      [Symbol((rem / Pow2(bits - 6)) as sextet, true)] + ToCome(bs, rem % Pow2(bits - 6), bits - 6)
    else Text(Sextets(bs, rem, bits), true)
  }

  lemma Powers12()
    ensures Pow2(0) == 1 && Pow2(2) == 4 && Pow2(4) == 16 && Pow2(6) == 64 && Pow2(8) == 256 && Pow2(10) == 1024 && Pow2(12) == 4096
  {
    Powers();
    assert Pow2(7) == 128 && Pow2(9) == 512 && Pow2(11) == 2048;
  }

  lemma TopSix(rem: nat, bits: nat)
    requires bits % 2 == 0 && 6 <= bits <= 12 && rem < Pow2(bits)
    ensures rem / Pow2(bits - 6) < 64
  {
    Powers12();
  }

  /** One byte enters the 32-bit buffer. */
  lemma ByteEnters(buffer: nat, b: nat, bits: nat)
    requires buffer < U32 && b < 256 && (bits == 0 || bits == 2 || bits == 4)
    ensures var b' := Shl(buffer, 8) + b;
      b' < U32 && b' % Pow2(bits + 8) == buffer % Pow2(bits) * 256 + b
  {
    ShiftByEight(buffer, b);
    Powers12();
    var y := buffer % 16 * 256 + b;
    var k :| Shl(buffer, 8) + b == y + 4096 * k;
    hide Shl, Pow2;
    if bits == 0 {
      EnterAt0(Shl(buffer, 8) + b, buffer % 16, b, k);
    } else if bits == 2 {
      ModOfMod16(buffer);
      EnterAt2(Shl(buffer, 8) + b, buffer % 16, b, k);
    } else {
      EnterAt4(Shl(buffer, 8) + b, y, k);
    }
  }

  lemma EnterAt0(x: int, low: nat, b: nat, k: int)
    requires x == low * 256 + b + 4096 * k && b < 256
    ensures x % 256 == b
  {
    assert x == 256 * (low + 16 * k) + b;
  }

  lemma EnterAt2(x: int, low: nat, b: nat, k: int)
    requires x == low * 256 + b + 4096 * k && b < 256
    ensures x % 1024 == low % 4 * 256 + b
  {
    var p, s := low / 4, low % 4;
    assert x == 1024 * (p + 4 * k) + (s * 256 + b);
  }

  lemma EnterAt4(x: int, y: nat, k: int)
    requires x == y + 4096 * k && y < 4096
    ensures x % 4096 == y
  {
  }

  lemma ModOfMod16(b: nat)
    ensures b % 16 % 4 == b % 4
  {
    var q, x := b / 16, b % 16;
    assert b == 4 * (4 * q + x / 4) + x % 4;
  }

  /** One symbol leaves: the buffer keeps its value, only fewer of its bits count. */
  lemma SymbolLeaves(buffer: nat, bits: nat)
    requires bits % 2 == 0 && 6 <= bits <= 12
    ensures var rem := buffer % Pow2(bits);
      buffer / Pow2(bits - 6) % 64 == rem / Pow2(bits - 6) && buffer % Pow2(bits - 6) == rem % Pow2(bits - 6)
  {
    Powers12();
    var m := Pow2(bits - 6);
    var q, r := buffer / Pow2(bits), buffer % Pow2(bits);
    assert Pow2(bits) == 64 * m;
    hide Pow2;
    assert buffer == 64 * m * q + r;
    LeaveTop(buffer, m, q, r);
  }

  lemma LeaveTop(x: nat, m: nat, q: nat, r: nat)
    requires (m == 1 || m == 4 || m == 16 || m == 64) && x == 64 * m * q + r && r < 64 * m
    ensures x / m % 64 == r / m && x % m == r % m
  {
    if m == 1 { LeaveAt1(x, q, r); }
    else if m == 4 { LeaveAt4(x, q, r); }
    else if m == 16 { LeaveAt16(x, q, r); }
    else { LeaveAt64(x, q, r); }
  }

  lemma LeaveAt1(x: nat, q: nat, r: nat)
    requires x == 64 * q + r && r < 64
    ensures x / 1 % 64 == r / 1 && x % 1 == r % 1
  {
  }

  lemma LeaveAt4(x: nat, q: nat, r: nat)
    requires x == 256 * q + r && r < 256
    ensures x / 4 % 64 == r / 4 && x % 4 == r % 4
  {
    var a, c := r / 4, r % 4;
    assert x == 4 * (64 * q + a) + c;
    MiddleField(q, a);
  }

  lemma LeaveAt16(x: nat, q: nat, r: nat)
    requires x == 1024 * q + r && r < 1024
    ensures x / 16 % 64 == r / 16 && x % 16 == r % 16
  {
    var a, c := r / 16, r % 16;
    assert x == 16 * (64 * q + a) + c;
    MiddleField(q, a);
  }

  lemma LeaveAt64(x: nat, q: nat, r: nat)
    requires x == 4096 * q + r && r < 4096
    ensures x / 64 % 64 == r / 64 && x % 64 == r % 64
  {
    var a, c := r / 64, r % 64;
    assert x == 64 * (64 * q + a) + c;
    MiddleField(q, a);
  }

  lemma ToComeAfterByte(b: byte, bs: seq<byte>, rem: nat, bits: nat)
    requires (bits == 0 || bits == 2 || bits == 4) && rem < Pow2(bits)
    ensures rem * 256 + b as int < Pow2(bits + 8)
    ensures ToCome([b] + bs, rem, bits) == ToCome(bs, rem * 256 + b as int, bits + 8)
  {
    Powers12();
    SextetsOf(b, bs, rem, bits);
    var v := rem * 256 + b as int;
    if bits == 4 {
      TextOfTwo((v / 64) as sextet, (v % 64) as sextet, Sextets(bs, 0, 0), true);
      assert ToCome(bs, v, 12) == [Symbol((v / 64) as sextet, true)] + ToCome(bs, v % 64, 6);
      assert ToCome(bs, v % 64, 6) == [Symbol((v % 64) as sextet, true)] + ToCome(bs, 0, 0);
    } else if bits == 2 {
      assert ToCome(bs, v, 10) == [Symbol((v / 16) as sextet, true)] + ToCome(bs, v % 16, 4);
    } else {
      assert ToCome(bs, v, 8) == [Symbol((v / 4) as sextet, true)] + ToCome(bs, v % 4, 2);
    }
  }
  lemma ModBelow(x: nat, bits: nat)
    ensures x % Pow2(bits) < Pow2(bits)
  {
  }

  lemma Reassociate(a: string, c: char, b: string)
    ensures (a + [c]) + b == a + ([c] + b)
  {
  }

  lemma NextSymbol(bs: seq<byte>, rem: nat, bits: nat)
    requires bits % 2 == 0 && 6 <= bits <= 12 && rem < Pow2(bits)
    ensures rem / Pow2(bits - 6) < 64 && rem % Pow2(bits - 6) < Pow2(bits - 6)
    ensures ToCome(bs, rem, bits)
      == [Symbol((rem / Pow2(bits - 6)) as sextet, true)] + ToCome(bs, rem % Pow2(bits - 6), bits - 6)
  {
    TopSix(rem, bits);
    ModBelow(rem, bits - 6);
    hide Pow2;
  }

  /** What is unsent at the end is sent with zeros below it. */
  lemma LastSymbol(rem: nat, bits: nat)
    requires (bits == 0 || bits == 2 || bits == 4) && rem < Pow2(bits)
    ensures rem * Pow2(6 - bits) < 64 || bits == 0
    ensures ToCome([], rem, bits) == if bits == 0 then "" else [Symbol((rem * Pow2(6 - bits)) as sextet, true)]
  {
    Powers12();
  }

  lemma FinalShift(buffer: nat, bits: nat)
    requires bits == 2 || bits == 4
    ensures Shl(buffer, 6 - bits) % 64 == buffer % Pow2(bits) * Pow2(6 - bits)
  {
    Powers12();
    if bits == 2 {
      var lost := buffer * 16 / U32;
      var q, r := buffer / 4, buffer % 4;
      assert buffer * 16 % U32 == buffer * 16 - U32 * lost;
      assert Shl(buffer, 4) == 64 * (q - 0x400_0000 * lost) + 16 * r;
    } else {
      var lost := buffer * 4 / U32;
      var q, r := buffer / 16, buffer % 16;
      assert buffer * 4 % U32 == buffer * 4 - U32 * lost;
      assert Shl(buffer, 2) == 64 * (q - 0x400_0000 * lost) + 4 * r;
    }
  }

  /** What is out, together with what is still to come, is the encoding. */
  ghost predicate Encoding(bytes: seq<byte>, out: string, i: nat, buffer: nat, bits: nat) {
    && i <= |bytes| && bits % 2 == 0 && bits <= 12 && buffer < U32 && buffer % Pow2(bits) < Pow2(bits)
    && out + ToCome(bytes[i..], buffer % Pow2(bits), bits) == Unpadded(bytes)
  }

  lemma EncodingStarts(bytes: seq<byte>)
    ensures Encoding(bytes, "", 0, 0, 0)
  {
    Powers12();
    assert bytes[0..] == bytes && 0 % Pow2(0) == 0;
    assert "" + ToCome(bytes, 0, 0) == ToCome(bytes, 0, 0);
  }

  lemma EncodingTakesByte(bytes: seq<byte>, out: string, i: nat, buffer: nat, bits: nat)
    requires Encoding(bytes, out, i, buffer, bits) && i < |bytes| && bits < 6
    ensures Encoding(bytes, out, i + 1, Shl(buffer, 8) + bytes[i] as nat, bits + 8)
  {
    hide Pow2, Shl, ToCome, Unpadded;
    assert bytes[i..] == [bytes[i]] + bytes[i + 1..];
    ByteEnters(buffer, bytes[i] as nat, bits);
    ToComeAfterByte(bytes[i], bytes[i + 1..], buffer % Pow2(bits), bits);
    ModBelow(Shl(buffer, 8) + bytes[i] as nat, bits + 8);
  }

  lemma EncodingSendsSymbol(bytes: seq<byte>, out: string, i: nat, buffer: nat, bits: nat)
    requires Encoding(bytes, out, i, buffer, bits) && bits >= 6
    ensures Encoding(bytes, out + [Symbol((buffer / Pow2(bits - 6) % 64) as sextet, true)], i, buffer, bits - 6)
  {
    hide Pow2, ToCome, Unpadded, Symbol;
    SymbolLeaves(buffer, bits);
    NextSymbol(bytes[i..], buffer % Pow2(bits), bits);
    ModBelow(buffer, bits - 6);
    Reassociate(out, Symbol((buffer / Pow2(bits - 6) % 64) as sextet, true),
                ToCome(bytes[i..], buffer % Pow2(bits - 6), bits - 6));
  }

  lemma EncodingEnds(bytes: seq<byte>, out: string, buffer: nat, bits: nat)
    requires Encoding(bytes, out, |bytes|, buffer, bits) && bits < 6
    ensures Unpadded(bytes) ==
      if bits > 0 then out + [Symbol((Shl(buffer, 6 - bits) % 64) as sextet, true)] else out
  {
    hide Pow2, ToCome, Unpadded, Symbol, Shl;
    assert bytes[|bytes|..] == [];
    LastSymbol(buffer % Pow2(bits), bits);
    if bits > 0 { FinalShift(buffer, bits); }
  }

  /** The token encoder, for a key of any length. */
  method EncodeBase64Url(bytes: seq<byte>) returns (out: string)
    ensures out == Unpadded(bytes)
  {
    hide *;
    out := "";
    var buffer: nat, bits: nat := 0, 0;
    EncodingStarts(bytes);
    var i := 0;
    while i < |bytes|
      invariant i <= |bytes| && bits < 6 && Encoding(bytes, out, i, buffer, bits)
    {
      EncodingTakesByte(bytes, out, i, buffer, bits);
      buffer := Shl(buffer, 8) + bytes[i] as nat;
      bits := bits + 8;
      i := i + 1;
      while bits >= 6
        invariant Encoding(bytes, out, i, buffer, bits)
      {
        EncodingSendsSymbol(bytes, out, i, buffer, bits);
        bits := bits - 6;
        out := out + [Symbol((buffer / Pow2(bits) % 64) as sextet, true)];
      }
    }
    EncodingEnds(bytes, out, buffer, bits);
    if bits > 0 {
      out := out + [Symbol((Shl(buffer, 6 - bits) % 64) as sextet, true)];
    }
  }
}
