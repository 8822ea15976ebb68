/** The self-rolled base32 codec of the TOTP secrets (backend/src/auth/totp.ts), section 6 of RFC 4648, unpadded. */
module Base32 {
  type Bits = seq<bool>

  type Byte = n: nat | n < 256

  const ALPHABET: string := "ABCDEFGHIJKLMNOPQRSTUVWXYZ234567"

  /** The letter at a position of the alphabet. */
  function LetterAt(d: nat): char
    requires d < 32
  {
    if d < 26 then ('A' as int + d) as char else ('2' as int + (d - 26)) as char
  }

  // ---- 32-bit words, as bit patterns ----

  const WORD := 0x1_0000_0000

  function Pow2(k: nat): (p: nat)
    ensures p > 0
  {
    if k == 0 then 1 else 2 * Pow2(k - 1)
  }

  /** Left shift of a 32-bit word, one bit at a time: bits pushed past the top are lost. */
  function Shl(v: nat, k: nat): nat
    decreases k, v
  {
    if k == 0 then v % WORD else Shl((2 * v) % WORD, k - 1)
  }

  /** Unsigned right shift, one bit at a time. */
  function Shr(v: nat, k: nat): nat
    decreases k, v
  {
    if k == 0 then v else Shr(v / 2, k - 1)
  }

  function Or(a: nat, b: nat): nat {
    if a == 0 then b
    else if b == 0 then a
    else 2 * Or(a / 2, b / 2) + (if a % 2 == 1 || b % 2 == 1 then 1 else 0)
  }

  function And(a: nat, b: nat): nat {
    if a == 0 || b == 0 then 0
    else 2 * And(a / 2, b / 2) + (if a % 2 == 1 && b % 2 == 1 then 1 else 0)
  }

  // ---- numbers as bit strings, most significant bit first ----

  function ToBits(v: nat, n: nat): (b: Bits)
    ensures |b| == n
    decreases v, n
  {
    if n == 0 then [] else ToBits(v / 2, n - 1) + [v % 2 == 1]
  }

  function FromBits(b: Bits): (v: nat)
    ensures v < Pow2(|b|)
  {
    if b == [] then 0 else 2 * FromBits(b[..|b| - 1]) + (if b[|b| - 1] then 1 else 0)
  }

  function Zeros(n: nat): (z: Bits)
    ensures |z| == n
  {
    seq(n, _ => false)
  }

  lemma {:induction false} ToFrom(b: Bits)
    ensures ToBits(FromBits(b), |b|) == b
  {
    if b != [] {
      var init, last := b[..|b| - 1], b[|b| - 1];
      ToFrom(init);
      var v := FromBits(b);
      assert v / 2 == FromBits(init) && (v % 2 == 1) == last;
      assert ToBits(v, |b|) == ToBits(v / 2, |b| - 1) + [v % 2 == 1];
      assert b == init + [last];
    }
  }

  lemma {:induction false} FromTo(v: nat, n: nat)
    requires v < Pow2(n)
    ensures FromBits(ToBits(v, n)) == v
  {
    if n > 0 {
      FromTo(v / 2, n - 1);
      assert ToBits(v, n)[..n - 1] == ToBits(v / 2, n - 1);
    }
  }

  lemma {:induction false} ZeroBits(k: nat)
    ensures ToBits(0, k) == Zeros(k)
  {
    if k > 0 {
      ZeroBits(k - 1);
    }
  }

  /** Splitting a number at bit k splits its bit string. */
  lemma {:induction false} ToBitsSplit(v: nat, n: nat, k: nat)
    ensures ToBits(v, n + k) == ToBits(Shr(v, k), n) + ToBits(v, k)
    decreases k
  {
    if k > 0 {
      ToBitsSplit(v / 2, n, k - 1);
      var hi, lo, last := ToBits(Shr(v, k), n), ToBits(v / 2, k - 1), [v % 2 == 1];
      assert ToBits(v, n + k) == ToBits(v / 2, n + k - 1) + last;
      assert (hi + lo) + last == hi + (lo + last);
    }
  }

  lemma {:induction false} ShrSmall(v: nat, k: nat)
    requires v < Pow2(k)
    ensures Shr(v, k) == 0
  {
    if k > 0 {
      ShrSmall(v / 2, k - 1);
    }
  }

  /** Keeping the low m bits of a number leaves its low n bits, n <= m, alone. */
  lemma {:induction false} ToBitsMod(v: nat, m: nat, n: nat)
    requires n <= m
    ensures ToBits(v % Pow2(m), n) == ToBits(v, n)
    decreases n
  {
    if n > 0 {
      var p := Pow2(m - 1);
      ModHalf(v, p);
      ToBitsMod(v / 2, m - 1, n - 1);
    }
  }

  lemma ModHalf(v: nat, p: nat)
    requires p > 0
    ensures v % (2 * p) == 2 * ((v / 2) % p) + v % 2
  {
    var q, r := (v / 2) / p, (v / 2) % p;
    assert v / 2 == q * p + r;
    assert v == q * (2 * p) + (2 * r + v % 2);
    DivModUnique(v, 2 * p, q, 2 * r + v % 2);
  }

  lemma DivModUnique(v: int, d: int, q: int, r: int)
    requires d > 0 && v == q * d + r && 0 <= r < d
    ensures v / d == q && v % d == r
  {
    var q', r' := v / d, v % d;
    assert (q - q') * d == r' - r;
    SmallMultiple(q - q', d);
  }

  lemma SmallMultiple(x: int, d: int)
    requires d > 0 && -d < x * d < d
    ensures x == 0
  {
    assert x >= 1 ==> (x - 1) * d >= 0;
    assert x <= -1 ==> (-x - 1) * d >= 0;
  }

  lemma Pow2Values()
    ensures Pow2(5) == 32 && Pow2(8) == 256 && Pow2(32) == WORD
  {
    assert Pow2(8) == 256 && Pow2(12) == 4096 && Pow2(16) == 0x1_0000;
    assert Pow2(20) == 0x10_0000 && Pow2(24) == 0x100_0000 && Pow2(28) == 0x1000_0000;
  }

  // ---- the accumulator ----

  /** A wrapping left shift appends zero bits to any pending bits that still fit the word. */
  lemma {:induction false} ShlBits(v: nat, n: nat, k: nat)
    requires n + k <= 32
    ensures ToBits(Shl(v, k), n + k) == ToBits(v, n) + Zeros(k)
    decreases k
  {
    Pow2Values();
    if k == 0 {
      ToBitsMod(v, 32, n);
    } else {
      var w := (2 * v) % WORD;
      ShlOne(v, n);
      ShlBits(w, n + 1, k - 1);
      assert Shl(v, k) == Shl(w, k - 1);
      hide *;
      assert [false] + Zeros(k - 1) == Zeros(k) by { ZerosNext(k); }
      assert (ToBits(v, n) + [false]) + Zeros(k - 1) == ToBits(v, n) + ([false] + Zeros(k - 1));
    }
  }

  lemma ZerosNext(k: nat)
    requires k > 0
    ensures [false] + Zeros(k - 1) == Zeros(k)
  {
  }

  lemma ShlOne(v: nat, n: nat)
    requires n < 32
    ensures ToBits((2 * v) % WORD, n + 1) == ToBits(v, n) + [false]
  {
    Pow2Values();
    ToBitsMod(2 * v, 32, n + 1);
    hide *;
    DoubleBits(v, n);
  }

  lemma DoubleBits(v: nat, n: nat)
    ensures ToBits(2 * v, n + 1) == ToBits(v, n) + [false]
  {
    assert (2 * v) / 2 == v && (2 * v) % 2 == 0;
  }

  lemma OrHalves(a: nat, b: nat)
    ensures Or(a, b) / 2 == Or(a / 2, b / 2)
    ensures Or(a, b) % 2 == 1 <==> a % 2 == 1 || b % 2 == 1
  {
  }

  lemma LastBit(v: nat, n: nat)
    requires n > 0
    ensures ToBits(v, n) == ToBits(v / 2, n - 1) + [v % 2 == 1]
  {
  }

  lemma {:induction false} OrBits(a: nat, b: nat, n: nat, i: nat)
    requires i < n
    ensures ToBits(Or(a, b), n)[i] == (ToBits(a, n)[i] || ToBits(b, n)[i])
    decreases n
  {
    hide *;
    OrHalves(a, b);
    LastBit(a, n);
    LastBit(b, n);
    LastBit(Or(a, b), n);
    if i < n - 1 {
      OrBits(a / 2, b / 2, n - 1, i);
    }
  }

  lemma {:induction false} MaskBits(v: nat, k: nat)
    ensures And(v, Pow2(k) - 1) < Pow2(k)
    ensures ToBits(And(v, Pow2(k) - 1), k) == ToBits(v, k)
    decreases k
  {
    if k > 0 {
      MaskBits(v / 2, k - 1);
      var mask := 2 * Pow2(k - 1) - 1;
      assert mask / 2 == Pow2(k - 1) - 1 && mask % 2 == 1;
      if v == 0 {
        ZeroBits(k);
      }
    }
  }

  /** Shifting k new bits into a 32-bit accumulator appends them to its pending bits, whatever overflows. */
  lemma ShiftIn(v: nat, n: nat, digit: nat, k: nat)
    requires digit < Pow2(k) && n + k <= 32
    ensures ToBits(Or(Shl(v, k), digit), n + k) == ToBits(v, n) + ToBits(digit, k)
  {
    ShlBits(v, n, k);
    ToBitsSplit(digit, n, k);
    ShrSmall(digit, k);
    ZeroBits(n);
    forall i | 0 <= i < n + k
      ensures ToBits(Or(Shl(v, k), digit), n + k)[i] == (ToBits(v, n) + ToBits(digit, k))[i]
    {
      OrBits(Shl(v, k), digit, n + k, i);
    }
  }

  /** The top k of the pending bits are what the shift-and-mask reads; the rest stay pending. */
  lemma ShiftOut(v: nat, n: nat, k: nat)
    requires k <= n
    ensures ToBits(v, n - k) == ToBits(v, n)[k..]
    ensures And(Shr(v, n - k), Pow2(k) - 1) == FromBits(ToBits(v, n)[..k])
  {
    ToBitsSplit(v, k, n - k);
    MaskBits(Shr(v, n - k), k);
    FromTo(And(Shr(v, n - k), Pow2(k) - 1), k);
  }

  // ---- the specification: regroup the bit string ----

  function BytesToBits(bytes: seq<Byte>): (b: Bits)
    ensures |b| == 8 * |bytes|
  {
    if bytes == [] then [] else ToBits(bytes[0], 8) + BytesToBits(bytes[1..])
  }

  /** Groups of five bits, the last one padded with zero bits, as letters. */
  function LettersOf(b: Bits): string
    decreases |b|
  {
    Pow2Values();
    if b == [] then ""
    else if |b| < 5 then [LetterAt(FromBits(b + Zeros(5 - |b|)))]
    else [LetterAt(FromBits(b[..5]))] + LettersOf(b[5..])
  }

  /** Whole groups of eight bits as bytes; a shorter remainder is dropped. */
  function BytesOf(b: Bits): seq<Byte>
    decreases |b|
  {
    Pow2Values();
    if |b| < 8 then [] else [FromBits(b[..8])] + BytesOf(b[8..])
  }

  /** Where a letter stands in the alphabet, or -1. */
  function IndexOf(c: char): (i: int)
    ensures -1 <= i < 32
  {
    if 'A' <= c <= 'Z' then c as int - 'A' as int
    else if '2' <= c <= '7' then c as int - '2' as int + 26
    else -1
  }

  function LetterToBits(c: char): Bits {
    if IndexOf(c) == -1 then [] else ToBits(IndexOf(c), 5)
  }

  function TextToBits(text: string): Bits {
    if text == "" then [] else LetterToBits(text[0]) + TextToBits(text[1..])
  }

  /** Unicode upper-casing, as far as the cleaning can see it: these are all the characters whose upper case
      holds a letter of the alphabet; any other is left as it is, and removed as any other upper case would be. */
  function Upper(c: char): string {
    if 'a' <= c <= 'z' then [(c as int - 32) as char]
    else if c == '\U{00df}' then "SS"
    else if c == '\U{0131}' then "I"
    else if c == '\U{0149}' then "\U{02bc}N"
    else if c == '\U{017f}' then "S"
    else if c == '\U{01f0}' then "J\U{030c}"
    else if c == '\U{1e96}' then "H\U{0331}"
    else if c == '\U{1e97}' then "T\U{0308}"
    else if c == '\U{1e98}' then "W\U{030a}"
    else if c == '\U{1e99}' then "Y\U{030a}"
    else if c == '\U{1e9a}' then "A\U{02be}"
    else if c == '\U{fb00}' then "FF"
    else if c == '\U{fb01}' then "FI"
    else if c == '\U{fb02}' then "FL"
    else if c == '\U{fb03}' then "FFI"
    else if c == '\U{fb04}' then "FFL"
    else if c == '\U{fb05}' || c == '\U{fb06}' then "ST"
    else [c]
  }

  function OnlyLetters(text: string): string {
    if text == "" then ""
    else (if IndexOf(text[0]) == -1 then "" else [text[0]]) + OnlyLetters(text[1..])
  }

  /** Upper-cased, with everything outside the alphabet removed. */
  function Clean(text: string): string {
    if text == "" then "" else OnlyLetters(Upper(text[0])) + Clean(text[1..])
  }

  function EncodeSpec(bytes: seq<Byte>): string {
    LettersOf(BytesToBits(bytes))
  }

  function DecodeSpec(text: string): seq<Byte> {
    BytesOf(TextToBits(Clean(text)))
  }

  // ---- the loops ----

  /** Reading a digit of k bits moves it from the input to the pending bits. */
  lemma ReadDigit(v: nat, n: nat, digit: nat, k: nat, rest: Bits)
    requires digit < Pow2(k) && n + k <= 32
    ensures ToBits(v, n) + (ToBits(digit, k) + rest) == ToBits(Or(Shl(v, k), digit), n + k) + rest
  {
    ShiftIn(v, n, digit, k);
  }

  lemma ReadByte(v: nat, n: nat, buffer: seq<Byte>)
    requires buffer != [] && n + 8 <= 32
    ensures ToBits(v, n) + BytesToBits(buffer) == ToBits(Or(Shl(v, 8), buffer[0]), n + 8) + BytesToBits(buffer[1..])
  {
    Pow2Values();
    ReadDigit(v, n, buffer[0], 8, BytesToBits(buffer[1..]));
  }

  lemma ReadLetter(v: nat, n: nat, text: string)
    requires text != "" && n + 5 <= 32
    ensures var idx := IndexOf(text[0]);
            ToBits(v, n) + TextToBits(text)
            == if idx == -1 then ToBits(v, n) + TextToBits(text[1..])
               else ToBits(Or(Shl(v, 5), idx), n + 5) + TextToBits(text[1..])
  {
    Pow2Values();
    if IndexOf(text[0]) != -1 {
      ReadDigit(v, n, IndexOf(text[0]), 5, TextToBits(text[1..]));
    }
  }

  /** The top five pending bits are the next letter. */
  lemma EmitLetter(v: nat, n: nat, rest: Bits)
    requires n >= 5
    ensures And(Shr(v, n - 5), 31) < 32
    ensures LettersOf(ToBits(v, n) + rest) == [LetterAt(And(Shr(v, n - 5), 31))] + LettersOf(ToBits(v, n - 5) + rest)
  {
    Pow2Values();
    ShiftOut(v, n, 5);
    var b := ToBits(v, n) + rest;
    assert b[..5] == ToBits(v, n)[..5] && b[5..] == ToBits(v, n)[5..] + rest;
  }

  /** The top eight pending bits are the next byte. */
  lemma EmitByte(v: nat, n: nat, rest: Bits)
    requires n >= 8
    ensures And(Shr(v, n - 8), 0xff) < 256
    ensures BytesOf(ToBits(v, n) + rest) == [And(Shr(v, n - 8), 0xff)] + BytesOf(ToBits(v, n - 8) + rest)
  {
    Pow2Values();
    ShiftOut(v, n, 8);
    var b := ToBits(v, n) + rest;
    assert b[..8] == ToBits(v, n)[..8] && b[8..] == ToBits(v, n)[8..] + rest;
  }

  /** What the final shift-and-mask reads: the pending bits, zero-padded to five. */
  lemma EmitLast(v: nat, n: nat, rest: seq<Byte>)
    requires n < 5 && rest == []
    ensures n > 0 ==> And(Shl(v, 5 - n), 31) < 32
    ensures LettersOf(ToBits(v, n) + BytesToBits(rest)) == if n == 0 then "" else [LetterAt(And(Shl(v, 5 - n), 31))]
  {
    assert ToBits(v, n) + BytesToBits(rest) == ToBits(v, n);
    if n > 0 {
      PaddedGroup(v, n);
      LastGroup(ToBits(v, n));
    }
  }

  lemma PaddedGroup(v: nat, n: nat)
    requires 0 < n < 5
    ensures And(Shl(v, 5 - n), 31) == FromBits(ToBits(v, n) + Zeros(5 - n))
  {
    Pow2Values();
    hide *;
    ShlBits(v, n, 5 - n);
    ShiftOut(Shl(v, 5 - n), 5, 5);
    ShrNone(Shl(v, 5 - n));
    assert ToBits(Shl(v, 5 - n), 5)[..5] == ToBits(Shl(v, 5 - n), 5);
  }

  lemma ShrNone(v: nat)
    ensures Shr(v, 0) == v
  {
  }

  lemma LastGroup(b: Bits)
    requires 0 < |b| < 5
    ensures FromBits(b + Zeros(5 - |b|)) < 32 && LettersOf(b) == [LetterAt(FromBits(b + Zeros(5 - |b|)))]
  {
    Pow2Values();
  }

  lemma StartEncoding(buffer: seq<Byte>)
    ensures LettersOf(ToBits(0, 0) + BytesToBits(buffer)) == EncodeSpec(buffer)
  {
    assert ToBits(0, 0) + BytesToBits(buffer) == BytesToBits(buffer);
  }

  lemma StartDecoding(text: string)
    ensures BytesOf(ToBits(0, 0) + TextToBits(Clean(text))) == DecodeSpec(text)
  {
    assert ToBits(0, 0) + TextToBits(Clean(text)) == TextToBits(Clean(text));
  }

  lemma DropRemainder(v: nat, n: nat, rest: string)
    requires n < 8 && rest == ""
    ensures BytesOf(ToBits(v, n) + TextToBits(rest)) == []
  {
  }

  method Base32Encode(buffer: seq<Byte>) returns (output: string)
    ensures output == EncodeSpec(buffer)
  {
    hide *;
    var bits: nat, value: nat := 0, 0;
    output := "";
    var i := 0;
    StartEncoding(buffer);
    assert buffer[0..] == buffer;
    while i < |buffer|
      invariant 0 <= i <= |buffer| && bits < 5
      invariant output + LettersOf(ToBits(value, bits) + BytesToBits(buffer[i..])) == EncodeSpec(buffer)
    {
      ReadByte(value, bits, buffer[i..]);
      assert buffer[i..][1..] == buffer[i + 1..];
      value := Or(Shl(value, 8), buffer[i]);
      bits := bits + 8;
      i := i + 1;
      while bits >= 5
        invariant output + LettersOf(ToBits(value, bits) + BytesToBits(buffer[i..])) == EncodeSpec(buffer)
      {
        EmitLetter(value, bits, BytesToBits(buffer[i..]));
        output := output + [LetterAt(And(Shr(value, bits - 5), 31))];
        bits := bits - 5;
      }
    }
    EmitLast(value, bits, buffer[i..]);
    if bits > 0 {
      output := output + [LetterAt(And(Shl(value, 5 - bits), 31))];
    }
  }

  method Base32Decode(encoded: string) returns (bytes: seq<Byte>)
    ensures bytes == DecodeSpec(encoded)
  {
    hide *;
    var clean := Clean(encoded);
    var bits: nat, value: nat := 0, 0;
    bytes := [];
    var i := 0;
    StartDecoding(encoded);
    assert clean[0..] == clean;
    while i < |clean|
      invariant 0 <= i <= |clean| && bits < 8
      invariant bytes + BytesOf(ToBits(value, bits) + TextToBits(clean[i..])) == DecodeSpec(encoded)
    {
      ReadLetter(value, bits, clean[i..]);
      assert clean[i..][1..] == clean[i + 1..];
      var idx := IndexOf(clean[i]);
      i := i + 1;
      if idx == -1 {
        continue;
      }
      value := Or(Shl(value, 5), idx);
      bits := bits + 5;
      if bits >= 8 {
        EmitByte(value, bits, TextToBits(clean[i..]));
        bytes := bytes + [And(Shr(value, bits - 8), 0xff)];
        bits := bits - 8;
      }
    }
    DropRemainder(value, bits, clean[i..]);
  }

  // ---- round trip ----

  lemma LetterPlace(d: nat)
    requires d < 32
    ensures LetterAt(d) == ALPHABET[d] && IndexOf(LetterAt(d)) == d
  {
  }

  lemma PlaceLetter(c: char)
    requires IndexOf(c) != -1
    ensures LetterAt(IndexOf(c)) == c
  {
  }

  /** IndexOf finds each letter where it stands in the alphabet, and nothing else. */
  lemma AlphabetLetter(c: char, d: nat)
    requires d < 32
    ensures IndexOf(c) == d <==> ALPHABET[d] == c
  {
    LetterPlace(d);
    if IndexOf(c) == d {
      PlaceLetter(c);
    }
    hide LetterAt, IndexOf;
  }

  predicate AllLetters(text: string) {
    forall i :: 0 <= i < |text| ==> IndexOf(text[i]) != -1
  }

  lemma {:induction false} TextToBitsConcat(a: string, b: string)
    ensures TextToBits(a + b) == TextToBits(a) + TextToBits(b)
  {
    if a == "" {
      assert a + b == b;
    } else {
      assert (a + b)[1..] == a[1..] + b;
      TextToBitsConcat(a[1..], b);
    }
  }

  lemma LetterSpellsGroup(group: Bits) returns (letter: char)
    requires |group| == 5
    ensures FromBits(group) < 32 && letter == LetterAt(FromBits(group))
    ensures IndexOf(letter) != -1 && LetterToBits(letter) == group
  {
    Pow2Values();
    var d := FromBits(group);
    letter := LetterAt(d);
    LetterPlace(d);
    ToFrom(group);
  }

  /** The letters spell the bit string back, followed by fewer than five zero bits of padding. */
  lemma {:induction false} LettersSpellBits(b: Bits) returns (pad: nat)
    ensures pad < 5 && TextToBits(LettersOf(b)) == b + Zeros(pad)
    ensures AllLetters(LettersOf(b))
    decreases |b|
  {
    hide *;
    if b == [] {
      pad := 0;
      NoLetters();
      assert b + Zeros(0) == b;
    } else if |b| < 5 {
      pad := 5 - |b|;
      LastGroup(b);
      NoLetters();
      var letter := LetterSpellsGroup(b + Zeros(pad));
      SpellOne(letter, LettersOf(b), "");
      assert LetterToBits(letter) + [] == b + Zeros(pad);
    } else {
      var letter := LetterSpellsGroup(b[..5]);
      FullGroup(b);
      pad := LettersSpellBits(b[5..]);
      SpellOne(letter, LettersOf(b), LettersOf(b[5..]));
      assert b + Zeros(pad) == b[..5] + (b[5..] + Zeros(pad));
    }
  }

  lemma NoLetters()
    ensures LettersOf([]) == "" && TextToBits("") == [] && AllLetters("")
  {
  }

  lemma FullGroup(b: Bits)
    requires |b| >= 5
    ensures FromBits(b[..5]) < 32 && LettersOf(b) == [LetterAt(FromBits(b[..5]))] + LettersOf(b[5..])
  {
    Pow2Values();
  }

  lemma SpellOne(letter: char, text: string, rest: string)
    requires text == [letter] + rest && IndexOf(letter) != -1
    ensures TextToBits(text) == LetterToBits(letter) + TextToBits(rest)
    ensures AllLetters(rest) ==> AllLetters(text)
  {
    assert text[1..] == rest;
  }

  lemma {:induction false} LettersLength(b: Bits)
    ensures 5 * |LettersOf(b)| - 5 < |b| <= 5 * |LettersOf(b)|
    decreases |b|
  {
    if |b| >= 5 {
      LettersLength(b[5..]);
    }
  }

  lemma CleanLetter(c: char)
    requires IndexOf(c) != -1
    ensures OnlyLetters(Upper(c)) == [c]
  {
    assert Upper(c) == [c] && [c][1..] == "";
  }

  lemma {:induction false} CleanLetters(text: string)
    requires AllLetters(text)
    ensures Clean(text) == text
  {
    if text != "" {
      assert forall i :: 0 <= i < |text[1..]| ==> text[1..][i] == text[i + 1];
      CleanLetters(text[1..]);
      CleanLetter(text[0]);
    }
  }

  /** Whole bytes survive regrouping; fewer than eight left-over bits yield nothing. */
  lemma {:induction false} BytesOfBits(bytes: seq<Byte>, rest: Bits)
    requires |rest| < 8
    ensures BytesOf(BytesToBits(bytes) + rest) == bytes
  {
    hide *;
    if bytes == [] {
      ShortRest(rest);
    } else {
      BytesOfBits(bytes[1..], rest);
      FirstByte(bytes[0], BytesToBits(bytes[1..]) + rest);
      FirstBits(bytes);
      assert BytesToBits(bytes) + rest == ToBits(bytes[0], 8) + (BytesToBits(bytes[1..]) + rest);
    }
  }

  lemma ShortRest(rest: Bits)
    requires |rest| < 8
    ensures BytesOf(BytesToBits([]) + rest) == []
  {
  }

  lemma FirstBits(bytes: seq<Byte>)
    requires bytes != []
    ensures BytesToBits(bytes) == ToBits(bytes[0], 8) + BytesToBits(bytes[1..])
  {
  }

  lemma FirstByte(byte: Byte, rest: Bits)
    ensures BytesOf(ToBits(byte, 8) + rest) == [byte] + BytesOf(rest)
  {
    Pow2Values();
    FromTo(byte, 8);
    hide ToBits, FromBits;
    var b := ToBits(byte, 8) + rest;
    assert b[..8] == ToBits(byte, 8) && b[8..] == rest;
  }

  /** The code has ceil(8n/5) letters, all of the alphabet. */
  lemma EncodedShape(bytes: seq<Byte>)
    ensures |EncodeSpec(bytes)| == (8 * |bytes| + 4) / 5
    ensures AllLetters(EncodeSpec(bytes))
  {
    var pad := LettersSpellBits(BytesToBits(bytes));
    LettersLength(BytesToBits(bytes));
  }

  /** Decoding returns exactly the bytes, from the code itself or from any text that cleans to it
      (lower case, spaces and other separators). */
  lemma RoundTrip(bytes: seq<Byte>, text: string)
    requires Clean(text) == EncodeSpec(bytes)
    ensures DecodeSpec(text) == bytes
    ensures Clean(EncodeSpec(bytes)) == EncodeSpec(bytes)
  {
    var pad := LettersSpellBits(BytesToBits(bytes));
    CleanLetters(EncodeSpec(bytes));
    BytesOfBits(bytes, Zeros(pad));
  }

  /** A letter of the code, typed in either case. */
  predicate Typed(c: char, letter: char) {
    c == letter || ('A' <= letter <= 'Z' && c as int == letter as int + 32)
  }

  /** The few characters beyond the Latin letters whose upper case holds a letter. */
  const LIGATURES: string := "\U{00df}\U{0131}\U{0149}\U{017f}\U{01f0}\U{1e96}\U{1e97}\U{1e98}\U{1e99}\U{1e9a}\U{fb00}\U{fb01}\U{fb02}\U{fb03}\U{fb04}\U{fb05}\U{fb06}"

  /** A space, a dash, a digit outside 2-7 or any other character that is no letter in either case. */
  predicate Separator(c: char) {
    !('A' <= c <= 'Z') && !('a' <= c <= 'z') && !('2' <= c <= '7') && c !in LIGATURES
  }

  /** The text is the code with each letter in either case and separators anywhere between. */
  predicate Spells(text: string, code: string) {
    if text == "" then code == ""
    else
      || (code != "" && Typed(text[0], code[0]) && Spells(text[1..], code[1..]))
      || (Separator(text[0]) && Spells(text[1..], code))
  }

  lemma TypedCleans(c: char, letter: char)
    requires IndexOf(letter) != -1 && Typed(c, letter)
    ensures OnlyLetters(Upper(c)) == [letter]
  {
    assert Upper(c) == [letter] && [letter][1..] == "";
  }

  lemma SeparatorCleans(c: char)
    requires Separator(c)
    ensures OnlyLetters(Upper(c)) == ""
  {
    var l := LIGATURES;
    assert c != l[0] && c != l[1] && c != l[2] && c != l[3] && c != l[4] && c != l[5] && c != l[6] && c != l[7] && c != l[8];
    assert c != l[9] && c != l[10] && c != l[11] && c != l[12] && c != l[13] && c != l[14] && c != l[15] && c != l[16];
    assert Upper(c) == [c] && [c][1..] == "";
  }

  lemma {:induction false} SpellingCleans(text: string, code: string)
    requires AllLetters(code) && Spells(text, code)
    ensures Clean(text) == code
  {
    hide Typed, Separator, Upper, IndexOf, OnlyLetters;
    if text != "" {
      if code != "" && Typed(text[0], code[0]) && Spells(text[1..], code[1..]) {
        TypedCleans(text[0], code[0]);
        assert forall i :: 0 <= i < |code[1..]| ==> code[1..][i] == code[i + 1];
        SpellingCleans(text[1..], code[1..]);
        assert code == [code[0]] + code[1..];
      } else {
        SeparatorCleans(text[0]);
        SpellingCleans(text[1..], code);
      }
    }
  }

  /** However the code is typed, in either case and broken up by separators, decoding returns exactly the bytes. */
  lemma TypedRoundTrip(bytes: seq<Byte>, text: string)
    requires Spells(text, EncodeSpec(bytes))
    ensures DecodeSpec(text) == bytes
  {
    EncodedShape(bytes);
    SpellingCleans(text, EncodeSpec(bytes));
    RoundTrip(bytes, text);
  }

  /** Two secrets with the same code are the same secret. */
  lemma EncodeIsInjective(a: seq<Byte>, b: seq<Byte>)
    requires EncodeSpec(a) == EncodeSpec(b)
    ensures a == b
  {
    EncodedShape(a);
    CleanLetters(EncodeSpec(a));
    RoundTrip(a, EncodeSpec(a));
    RoundTrip(b, EncodeSpec(a));
  }
}
