/** base32Encode and base32Decode: two loops that shift a 32-bit register, whose upper bits are never
    cleared and are lost as it overflows. The specification is the unpadded encoding of section 6 of
    RFC 4648: the input as one string of bits, cut into groups of five, the last group filled up with
    zero bits. */
module Base32 {
  import opened Options
  import opened Strings

  type Byte = x: nat | x < 256

  function Pow2(n: nat): (p: nat)
    ensures p > 0
  {
    if n == 0 then 1 else 2 * Pow2(n - 1)
  }

  // ---------------------------------------------------------------- the register

  function Shl(x: nat, n: nat): nat {
    if n == 0 then x else 2 * Shl(x, n - 1)
  }

  /** `x >>> n`. */
  function Shr(x: nat, n: nat): nat {
    if n == 0 then x else Shr(x / 2, n - 1)
  }

  /** `x & (2^n - 1)`; with n == 32, what is left of a number in a 32-bit register. */
  function Low(x: nat, n: nat): (r: nat)
    ensures r < Pow2(n)
  {
    if n == 0 then 0 else 2 * Low(x / 2, n - 1) + x % 2
  }

  /** `(value << n) | low`, as the 32 bits it leaves, for `low` below 2^n: the shift clears the bits that the
      disjunction sets. The sign bit is a bit like any other, since the code reads with `>>>`. */
  function ShiftIn(value: nat, n: nat, low: nat): nat {
    Low(Shl(value, n), 32) + low
  }

  // ---------------------------------------------------------------- the specification

  /** The low `w` bits of `x`, most significant first. */
  function Bits(x: nat, w: nat): (bits: seq<bool>)
    ensures |bits| == w
  {
    if w == 0 then [] else Bits(x / 2, w - 1) + [x % 2 == 1]
  }

  function Number(bits: seq<bool>): (x: nat)
    ensures x < Pow2(|bits|)
  {
    if bits == [] then 0 else 2 * Number(bits[..|bits| - 1]) + if bits[|bits| - 1] then 1 else 0
  }

  /** The bits of a sequence of `w`-bit values, end to end. */
  function Flatten(xs: seq<nat>, w: nat): seq<bool> {
    if xs == [] then [] else Bits(xs[0], w) + Flatten(xs[1..], w)
  }

  /** Cuts a bit string into `w`-bit values; an incomplete group at the end is dropped. */
  function Groups(bits: seq<bool>, w: nat): (xs: seq<nat>)
    requires w > 0
    decreases |bits|
  {
    if |bits| < w then [] else [Number(bits[..w])] + Groups(bits[w..], w)
  }

  function Zeros(n: nat): (bits: seq<bool>)
    ensures |bits| == n
  {
    seq(n, _ => false)
  }

  /** Number of zero bits that fill the last group of five for `n` bytes. */
  function Fill(n: nat): (k: nat)
    ensures k < 5 && (8 * n + k) % 5 == 0
  {
    2 * n % 5
  }

  function EncodeSymbols(bytes: seq<Byte>): seq<nat> {
    Groups(Flatten(bytes, 8) + Zeros(Fill(|bytes|)), 5)
  }

  function DecodeSymbols(symbols: seq<nat>): seq<nat> {
    Groups(Flatten(symbols, 5), 8)
  }

  predicate Small(xs: seq<nat>, w: nat) {
    forall i :: 0 <= i < |xs| ==> xs[i] < Pow2(w)
  }

  // ---------------------------------------------------------------- bit strings

  lemma {:induction false} BitsSplit(x: nat, a: nat, b: nat)
    ensures Bits(x, a + b) == Bits(Shr(x, b), a) + Bits(x, b)
  {
    if b > 0 {
      BitsSplit(x / 2, a, b - 1);
      assert Bits(x, a + b) == Bits(x / 2, a + b - 1) + [x % 2 == 1];
    }
  }

  /** The low bits do not depend on what is above them: the overflow of the register is harmless. */
  lemma {:induction false} BitsLow(x: nat, k: nat, w: nat)
    requires w <= k
    ensures Bits(Low(x, k), w) == Bits(x, w)
  {
    if w > 0 {
      assert Low(x, k) / 2 == Low(x / 2, k - 1);
      BitsLow(x / 2, k - 1, w - 1);
    }
  }

  lemma {:induction false} NumberOfBits(x: nat, w: nat)
    ensures Number(Bits(x, w)) == Low(x, w)
  {
    if w > 0 {
      NumberOfBits(x / 2, w - 1);
      assert Bits(x, w)[..w - 1] == Bits(x / 2, w - 1);
    }
  }

  lemma {:induction false} LowOfSmall(x: nat, w: nat)
    requires x < Pow2(w)
    ensures Low(x, w) == x
  {
    if w > 0 {
      LowOfSmall(x / 2, w - 1);
    }
  }

  lemma {:induction false} BitsOfNumber(bits: seq<bool>)
    ensures Bits(Number(bits), |bits|) == bits
  {
    if bits != [] {
      BitsOfNumber(bits[..|bits| - 1]);
    }
  }

  /** Adding below a shifted number appends bits. */
  lemma {:induction false} BitsShl(x: nat, n: nat, low: nat, w: nat)
    requires low < Pow2(n)
    ensures Bits(Shl(x, n) + low, w + n) == Bits(x, w) + Bits(low, n)
  {
    if n > 0 {
      assert (Shl(x, n) + low) / 2 == Shl(x, n - 1) + low / 2;
      BitsShl(x, n - 1, low / 2, w);
      assert Bits(Shl(x, n) + low, w + n) == Bits(Shl(x, n - 1) + low / 2, w + n - 1) + [low % 2 == 1];
    }
  }

  lemma LowDouble(y: nat, bit: nat, k: nat)
    requires bit < 2 && k > 0
    ensures Low(2 * y + bit, k) == 2 * Low(y, k - 1) + bit
  {
    assert (2 * y + bit) / 2 == y && (2 * y + bit) % 2 == bit;
  }

  lemma {:induction false} LowShl(x: nat, n: nat, low: nat, k: nat)
    requires low < Pow2(n) && n <= k
    ensures Low(Shl(x, n), k) + low == Low(Shl(x, n) + low, k)
  {
    if n > 0 {
      var y := Shl(x, n - 1);
      LowShl(x, n - 1, low / 2, k - 1);
      LowDouble(y, 0, k);
      LowDouble(y + low / 2, low % 2, k);
      assert Shl(x, n) + low == 2 * (y + low / 2) + low % 2;
    }
  }

  /** Shifting `n` bits into the 32-bit register appends them to the pending bits. */
  lemma ShiftInBits(value: nat, pending: nat, n: nat, low: nat)
    requires pending + n <= 32 && low < Pow2(n)
    ensures Bits(ShiftIn(value, n, low), pending + n) == Bits(value, pending) + Bits(low, n)
  {
    LowShl(value, n, low, 32);
    BitsLow(Shl(value, n) + low, 32, pending + n);
    BitsShl(value, n, low, pending);
  }

  /** Reading the top `w` of the pending bits out of the register. */
  lemma ShiftOutBits(value: nat, pending: nat, w: nat)
    requires w <= pending
    ensures Bits(value, pending) == Bits(Low(Shr(value, pending - w), w), w) + Bits(value, pending - w)
  {
    BitsSplit(value, w, pending - w);
    BitsLow(Shr(value, pending - w), w, w);
  }

  lemma {:induction false} FlattenAppend(xs: seq<nat>, x: nat, w: nat)
    ensures Flatten(xs + [x], w) == Flatten(xs, w) + Bits(x, w)
  {
    if xs == [] {
      assert [x][1..] == [];
    } else {
      assert (xs + [x])[1..] == xs[1..] + [x];
      FlattenAppend(xs[1..], x, w);
    }
  }

  lemma {:induction false} FlattenLength(xs: seq<nat>, w: nat)
    ensures |Flatten(xs, w)| == w * |xs|
  {
    if xs != [] {
      FlattenLength(xs[1..], w);
    }
  }

  lemma GroupsStep(first: seq<bool>, rest: seq<bool>)
    requires first != []
    ensures Groups(first + rest, |first|) == [Number(first)] + Groups(rest, |first|)
  {
    assert (first + rest)[..|first|] == first && (first + rest)[|first|..] == rest;
  }

  lemma Regroup(a: seq<bool>, b: seq<bool>, c: seq<bool>)
    ensures (a + b) + c == a + (b + c)
  {
  }

  /** Cutting undoes flattening; whatever is left over is dropped. */
  lemma {:induction false} GroupsOfFlatten(xs: seq<nat>, rest: seq<bool>, w: nat)
    requires w > 0 && |rest| < w && Small(xs, w)
    ensures Groups(Flatten(xs, w) + rest, w) == xs
  {
    if xs == [] {
      assert Flatten(xs, w) + rest == rest;
    } else {
      var tail := xs[1..];
      NumberOfBits(xs[0], w);
      LowOfSmall(xs[0], w);
      GroupsOfFlatten(tail, rest, w);
      Regroup(Bits(xs[0], w), Flatten(tail, w), rest);
      GroupsStep(Bits(xs[0], w), Flatten(tail, w) + rest);
      assert [xs[0]] + tail == xs;
    }
  }

  /** Flattening undoes cutting into fives, when nothing is left over. */
  lemma {:induction false} FlattenOfGroups(bits: seq<bool>)
    requires |bits| % 5 == 0
    ensures Flatten(Groups(bits, 5), 5) == bits
    ensures |Groups(bits, 5)| == |bits| / 5 && Small(Groups(bits, 5), 5)
    decreases |bits|
  {
    if |bits| >= 5 {
      FlattenOfGroups(bits[5..]);
      BitsOfNumber(bits[..5]);
      assert bits == bits[..5] + bits[5..];
    }
  }

  /** Main result: decoding undoes encoding for every byte string, and the encoded length is ceil(8n/5). */
  lemma RoundTrip(bytes: seq<Byte>)
    ensures DecodeSymbols(EncodeSymbols(bytes)) == bytes
    ensures |EncodeSymbols(bytes)| == (8 * |bytes| + 4) / 5
    ensures Small(EncodeSymbols(bytes), 5)
  {
    var fill := Zeros(Fill(|bytes|));
    FlattenLength(bytes, 8);
    FlattenOfGroups(Flatten(bytes, 8) + fill);
    BytesAreSmall(bytes);
    GroupsOfFlatten(bytes, fill, 8);
  }

  lemma BytesAreSmall(bytes: seq<Byte>)
    ensures Small(bytes, 8)
  {
    assert Pow2(4) == 16;
    assert Pow2(8) == 256;
  }

  /** The encoding is the one that RFC 4648 describes: its symbols spell the input bits followed by fewer
      than five zero bits, and no other symbols do. */
  lemma EncodingIsUnique(bytes: seq<Byte>, symbols: seq<nat>, k: nat)
    requires Small(symbols, 5) && k < 5
    requires Flatten(symbols, 5) == Flatten(bytes, 8) + Zeros(k)
    ensures symbols == EncodeSymbols(bytes)
  {
    FlattenLength(bytes, 8);
    FlattenLength(symbols, 5);
    FillIsDetermined(|bytes|, |symbols|, k);
    WholeGroups(symbols);
  }

  lemma FillIsDetermined(n: nat, m: nat, k: nat)
    requires 5 * m == 8 * n + k && k < 5
    ensures k == Fill(n)
  {
  }

  lemma WholeGroups(symbols: seq<nat>)
    requires Small(symbols, 5)
    ensures Groups(Flatten(symbols, 5), 5) == symbols
  {
    GroupsOfFlatten(symbols, [], 5);
    assert Flatten(symbols, 5) + [] == Flatten(symbols, 5);
  }

  // ---------------------------------------------------------------- text

  lemma FiveBits(x: nat)
    requires x < Pow2(5)
    ensures x < 32
  {
    assert Pow2(3) == 8;
  }

  /** Character `x` of the alphabet: A to Z, then 2 to 7. */
  function Symbol(x: nat): (c: char)
    requires x < 32
  {
    (if x < 26 then 'A' as int + x else '2' as int + x - 26) as char
  }

  /** The position of a character in the alphabet; 32 if there is none. */
  function IndexOf(c: char): (j: nat)
    ensures j <= 32 && (j < 32 ==> Symbol(j) == c)
    ensures forall k: nat :: k < 32 && Symbol(k) == c ==> k == j
  {
    if 'A' <= c <= 'Z' then c as int - 'A' as int
    else if '2' <= c <= '7' then c as int - '2' as int + 26
    else 32
  }

  function Text(symbols: seq<nat>): (s: string)
    requires Small(symbols, 5)
    ensures |s| == |symbols|
  {
    seq(|symbols|, i requires 0 <= i < |symbols| => FiveBits(symbols[i]); Symbol(symbols[i]))
  }

  /** The alphabet indices of a cleaned string, or None if a character is not in the alphabet. */
  function Indices(clean: string): (r: Option<seq<nat>>)
    ensures r.Some? ==> |r.value| == |clean|
  {
    if clean == "" then Some([])
    else
      var init := Indices(clean[..|clean| - 1]);
      var j := IndexOf(clean[|clean| - 1]);
      if init.None? || j == 32 then None else Some(init.value + [j])
  }

  function DropPadding(s: string): string {
    if s != "" && s[|s| - 1] == '=' then DropPadding(s[..|s| - 1]) else s
  }

  function StripAndRaise(s: string): string {
    if s == "" then ""
    else
      var init := StripAndRaise(s[..|s| - 1]);
      var c := s[|s| - 1];
      if IsSpace(c) then init else init + [UpperChar(c)]
  }

  /** Padding at the very end is dropped first, then white space, then case. */
  function Clean(input: string): string {
    StripAndRaise(DropPadding(input))
  }

  function EncodeText(bytes: seq<Byte>): string {
    RoundTrip(bytes);
    Text(EncodeSymbols(bytes))
  }

  /** None stands for the error 'invalid_base32'. */
  function DecodeText(input: string): Option<seq<nat>> {
    var symbols := Indices(Clean(input));
    if symbols.None? then None else Some(DecodeSymbols(symbols.value))
  }

  lemma AlphabetIsClean(x: nat)
    requires x < 32
    ensures !IsSpace(Symbol(x)) && UpperChar(Symbol(x)) == Symbol(x) && Symbol(x) != '='
  {
  }

  lemma TextAppend(symbols: seq<nat>, x: nat)
    requires Small(symbols, 5) && x < Pow2(5)
    ensures Small(symbols + [x], 5) && x < 32
    ensures Text(symbols + [x]) == Text(symbols) + [Symbol(x)]
  {
    FiveBits(x);
  }

  lemma {:induction false} CleaningKeepsText(symbols: seq<nat>)
    requires Small(symbols, 5)
    ensures StripAndRaise(Text(symbols)) == Text(symbols)
  {
    if symbols != [] {
      var n := |symbols| - 1;
      var init := symbols[..n];
      CleaningKeepsText(init);
      TextAppend(init, symbols[n]);
      AlphabetIsClean(symbols[n]);
      assert symbols == init + [symbols[n]];
      assert Text(symbols)[..n] == Text(init);
    }
  }

  lemma {:induction false} IndicesOfText(symbols: seq<nat>)
    requires Small(symbols, 5)
    ensures Indices(Text(symbols)) == Some(symbols)
  {
    if symbols != [] {
      var n := |symbols| - 1;
      var init := symbols[..n];
      IndicesOfText(init);
      TextAppend(init, symbols[n]);
      assert symbols == init + [symbols[n]];
      assert Text(symbols)[..n] == Text(init);
    }
  }

  lemma {:induction false} StripConcat(a: string, b: string)
    ensures StripAndRaise(a + b) == StripAndRaise(a) + StripAndRaise(b)
  {
    if b == "" {
      assert a + b == a;
    } else {
      var n := |b| - 1;
      StripConcat(a, b[..n]);
      assert (a + b)[..|a + b| - 1] == a + b[..n];
    }
  }

  lemma {:induction false} StripLower(s: string)
    ensures StripAndRaise(Lower(s)) == StripAndRaise(s)
  {
    if s != "" {
      var n := |s| - 1;
      StripLower(s[..n]);
      assert Lower(s)[..n] == Lower(s[..n]);
      CaseOf(s[n]);
    }
  }

  lemma CaseOf(c: char)
    ensures IsSpace(LowerChar(c)) == IsSpace(c) && UpperChar(LowerChar(c)) == UpperChar(c)
  {
  }

  /** However it is typed: padding at the end is ignored. */
  lemma {:induction false} PaddingIsIgnored(s: string, padding: string)
    requires forall i :: 0 <= i < |padding| ==> padding[i] == '='
    ensures DecodeText(s + padding) == DecodeText(s)
  {
    if padding == "" {
      assert s + padding == s;
    } else {
      var n := |padding| - 1;
      PaddingIsIgnored(s, padding[..n]);
      assert (s + padding)[..|s + padding| - 1] == s + padding[..n];
    }
  }

  /** And so are white space anywhere before the end, and the case of the letters. */
  lemma SpacingIsIgnored(a: string, space: string, b: string)
    requires forall i :: 0 <= i < |space| ==> IsSpace(space[i])
    requires b != "" && b[|b| - 1] != '='
    ensures DecodeText(a + space + b) == DecodeText(a + b)
  {
    StripConcat(a + space, b);
    StripConcat(a, space);
    StripConcat(a, b);
    StripSpace(space);
    assert StripAndRaise(a) + "" == StripAndRaise(a);
    var spaced, plain := a + space + b, a + b;
    assert spaced[|spaced| - 1] == b[|b| - 1] == plain[|plain| - 1];
  }

  lemma {:induction false} StripSpace(space: string)
    requires forall i :: 0 <= i < |space| ==> IsSpace(space[i])
    ensures StripAndRaise(space) == ""
  {
    if space != "" {
      StripSpace(space[..|space| - 1]);
    }
  }

  lemma CaseIsIgnored(s: string)
    requires s != "" ==> s[|s| - 1] != '='
    ensures DecodeText(Lower(s)) == DecodeText(s)
  {
    StripLower(s);
    if s != "" {
      assert LowerChar(s[|s| - 1]) != '=';
    }
  }

  /** A text is refused exactly if something else is left of it than the letters and digits of the alphabet. */
  lemma RefusedIffForeign(input: string)
    ensures DecodeText(input).None? <==> exists i :: 0 <= i < |Clean(input)| && IndexOf(Clean(input)[i]) == 32
  {
    IndicesFailIff(Clean(input));
  }

  lemma {:induction false} IndicesFailIff(clean: string)
    ensures Indices(clean).None? <==> exists i :: 0 <= i < |clean| && IndexOf(clean[i]) == 32
  {
    if clean != "" {
      var init := clean[..|clean| - 1];
      IndicesFailIff(init);
      assert forall i :: 0 <= i < |init| ==> init[i] == clean[i];
    }
  }

  /** The round trip on the text that is stored and typed. */
  lemma TextRoundTrip(bytes: seq<Byte>)
    ensures DecodeText(EncodeText(bytes)) == Some(bytes)
    ensures |EncodeText(bytes)| == (8 * |bytes| + 4) / 5
  {
    RoundTrip(bytes);
    var symbols := EncodeSymbols(bytes);
    CleaningKeepsText(symbols);
    IndicesOfText(symbols);
    if symbols != [] {
      FiveBits(symbols[|symbols| - 1]);
      AlphabetIsClean(symbols[|symbols| - 1]);
    }
  }

  // ---------------------------------------------------------------- the loops

  /** The register between two steps: the bits read so far, in `v`-bit values, are the bits written so far,
      in `w`-bit values, and then the pending bits of the register. */
  ghost predicate Register(read: seq<nat>, v: nat, written: seq<nat>, w: nat, value: nat, pending: nat) {
    Flatten(read, v) == Flatten(written, w) + Bits(value, pending)
  }

  lemma ReadValue(read: seq<nat>, v: nat, written: seq<nat>, w: nat, value: nat, pending: nat, x: nat)
    requires Register(read, v, written, w, value, pending)
    requires pending + v <= 32 && x < Pow2(v)
    ensures Register(read + [x], v, written, w, ShiftIn(value, v, x), pending + v)
  {
    ShiftInBits(value, pending, v, x);
    FlattenAppend(read, x, v);
    Regroup(Flatten(written, w), Bits(value, pending), Bits(x, v));
  }

  lemma WriteValue(read: seq<nat>, v: nat, written: seq<nat>, w: nat, value: nat, pending: nat)
    requires Register(read, v, written, w, value, pending)
    requires w <= pending
    ensures Register(read, v, written + [Low(Shr(value, pending - w), w)], w, value, pending - w)
  {
    ShiftOutBits(value, pending, w);
    FlattenAppend(written, Low(Shr(value, pending - w), w), w);
  }

  method Encode(buffer: seq<Byte>) returns (out: string)
    ensures out == EncodeText(buffer)
  {
    var pending, value := 0, 0;
    ghost var symbols: seq<nat> := [];
    out := "";
    BytesAreSmall(buffer);
    for i := 0 to |buffer|
      invariant pending < 5 && Small(symbols, 5) && out == Text(symbols)
      invariant Register(buffer[..i], 8, symbols, 5, value, pending)
    {
      ReadValue(buffer[..i], 8, symbols, 5, value, pending, buffer[i]);
      assert buffer[..i + 1] == buffer[..i] + [buffer[i]];
      value := ShiftIn(value, 8, buffer[i]);
      pending := pending + 8;
      while pending >= 5
        invariant pending < 13 && Small(symbols, 5) && out == Text(symbols)
        invariant Register(buffer[..i + 1], 8, symbols, 5, value, pending)
      {
        var x := Low(Shr(value, pending - 5), 5);
        WriteValue(buffer[..i + 1], 8, symbols, 5, value, pending);
        TextAppend(symbols, x);
        out := out + [Symbol(x)];
        symbols := symbols + [x];
        pending := pending - 5;
      }
    }
    assert buffer[..|buffer|] == buffer;
    if pending > 0 {
      var x := Low(ShiftIn(value, 5 - pending, 0), 5);
      LastSymbol(buffer, symbols, value, pending);
      TextAppend(symbols, x);
      out := out + [Symbol(x)];
      symbols := symbols + [x];
    } else {
      assert Flatten(buffer, 8) + Zeros(0) == Flatten(buffer, 8);
      EncodingIsUnique(buffer, symbols, 0);
    }
  }

  /** The last symbol holds the pending bits and then zeros. */
  lemma LastSymbol(buffer: seq<Byte>, symbols: seq<nat>, value: nat, pending: nat)
    requires 0 < pending < 5 && Small(symbols, 5)
    requires Register(buffer, 8, symbols, 5, value, pending)
    ensures symbols + [Low(ShiftIn(value, 5 - pending, 0), 5)] == EncodeSymbols(buffer)
  {
    var k := 5 - pending;
    var shifted := ShiftIn(value, k, 0);
    var x := Low(shifted, 5);
    LastBits(value, pending, shifted, x);
    FlattenAppend(symbols, x, 5);
    Regroup(Flatten(symbols, 5), Bits(value, pending), Zeros(k));
    EncodingIsUnique(buffer, symbols + [x], k);
  }

  lemma LastBits(value: nat, pending: nat, shifted: nat, x: nat)
    requires 0 < pending < 5 && shifted == ShiftIn(value, 5 - pending, 0) && x == Low(shifted, 5)
    ensures Bits(x, 5) == Bits(value, pending) + Zeros(5 - pending)
    ensures x < Pow2(5)
  {
    ShiftInBits(value, pending, 5 - pending, 0);
    BitsLow(shifted, 5, 5);
    ZeroBits(5 - pending);
  }

  lemma {:induction false} ZeroBits(n: nat)
    ensures Bits(0, n) == Zeros(n)
  {
    if n > 0 {
      ZeroBits(n - 1);
    }
  }

  /** The loop over the cleaned text. */
  method DecodeClean(clean: string) returns (result: Option<seq<nat>>)
    ensures result == if Indices(clean).None? then None else Some(DecodeSymbols(Indices(clean).value))
  {
    var pending, value := 0, 0;
    var bytes: seq<nat> := [];
    ghost var symbols: seq<nat> := [];
    for i := 0 to |clean|
      invariant pending < 8 && Small(bytes, 8) && Indices(clean[..i]) == Some(symbols)
      invariant Register(symbols, 5, bytes, 8, value, pending)
    {
      var index := IndexOf(clean[i]);
      IndicesAppend(clean, i);
      if index == 32 {
        IndicesPrefix(clean, i + 1);
        return None;
      }
      ReadIndex(symbols, bytes, value, pending, index);
      value := ShiftIn(value, 5, index);
      symbols := symbols + [index];
      pending := pending + 5;
      if pending >= 8 {
        var byte := Low(Shr(value, pending - 8), 8);
        WriteByte(symbols, bytes, value, pending);
        bytes := bytes + [byte];
        pending := pending - 8;
      }
    }
    assert clean[..|clean|] == clean;
    DecodingEnds(symbols, bytes, value, pending);
    return Some(bytes);
  }

  method Decode(input: string) returns (result: Option<seq<nat>>)
    ensures result == DecodeText(input)
  {
    var clean := Clean(input);
    result := DecodeClean(clean);
  }

  lemma ReadIndex(symbols: seq<nat>, bytes: seq<nat>, value: nat, pending: nat, index: nat)
    requires Register(symbols, 5, bytes, 8, value, pending) && pending < 8 && index < 32
    ensures Register(symbols + [index], 5, bytes, 8, ShiftIn(value, 5, index), pending + 5)
  {
    FiveBitIndices();
    ReadValue(symbols, 5, bytes, 8, value, pending, index);
  }

  lemma WriteByte(symbols: seq<nat>, bytes: seq<nat>, value: nat, pending: nat)
    requires Register(symbols, 5, bytes, 8, value, pending) && pending >= 8 && Small(bytes, 8)
    ensures var byte := Low(Shr(value, pending - 8), 8);
      Register(symbols, 5, bytes + [byte], 8, value, pending - 8) && Small(bytes + [byte], 8)
  {
    WriteValue(symbols, 5, bytes, 8, value, pending);
  }

  /** The bits left in the register at the end are dropped. */
  lemma DecodingEnds(symbols: seq<nat>, bytes: seq<nat>, value: nat, pending: nat)
    requires Register(symbols, 5, bytes, 8, value, pending) && pending < 8 && Small(bytes, 8)
    ensures DecodeSymbols(symbols) == bytes
  {
    GroupsOfFlatten(bytes, Bits(value, pending), 8);
  }

  lemma FiveBitIndices()
    ensures Pow2(5) == 32
  {
    assert Pow2(3) == 8;
  }

  lemma IndicesAppend(clean: string, i: nat)
    requires i < |clean|
    ensures Indices(clean[..i + 1]) ==
            if Indices(clean[..i]).None? || IndexOf(clean[i]) == 32 then None
            else Some(Indices(clean[..i]).value + [IndexOf(clean[i])])
  {
    assert clean[..i + 1][..i] == clean[..i];
  }

  lemma {:induction false} IndicesPrefix(clean: string, n: nat)
    requires n <= |clean| && Indices(clean[..n]).None?
    ensures Indices(clean).None?
    decreases |clean| - n
  {
    if n == |clean| {
      assert clean[..n] == clean;
    } else {
      IndicesAppend(clean, n);
      IndicesPrefix(clean, n + 1);
    }
  }
}
