/** The base-32 encoder of the redaction variants, against the encoding it stands for and
    the decoder of section 6 of RFC 4648. */
module Base32 {
  import opened Wrappers

  // ---- bits, most significant first ------------------------------------------------

  type Bits = seq<bool>

  function Pow2(n: nat): (p: nat)
    ensures p > 0
  {
    if n == 0 then 1 else 2 * Pow2(n - 1)
  }

  /** The lowest `n` bits of `v`. */
  function LowBits(v: nat, n: nat): (bits: Bits)
    ensures |bits| == n
  {
    if n == 0 then [] else LowBits(v / 2, n - 1) + [v % 2 == 1]
  }

  function Value(bits: Bits): nat {
    if bits == [] then 0
    else 2 * Value(bits[..|bits| - 1]) + if bits[|bits| - 1] then 1 else 0
  }

  function Zeros(n: nat): (bits: Bits)
    ensures |bits| == n
  {
    seq(n, _ => false)
  }

  /** The bits of `width`-bit numbers, one after the other. */
  function Joined(numbers: seq<nat>, width: nat): (bits: Bits)
    ensures |bits| == |numbers| * width
  {
    if numbers == [] then [] else LowBits(numbers[0], width) + Joined(numbers[1..], width)
  }

  /** `v >> n`. */
  function ShiftedRight(v: nat, n: nat): nat {
    if n == 0 then v else ShiftedRight(v / 2, n - 1)
  }

  /** `v & ((1 << n) - 1)`. */
  function Masked(v: nat, n: nat): (m: nat)
    ensures m < Pow2(n)
  {
    if n == 0 then 0 else 2 * Masked(v / 2, n - 1) + v % 2
  }

  lemma Powers()
    ensures Pow2(0) == 1 && Pow2(1) == 2 && Pow2(2) == 4 && Pow2(3) == 8 && Pow2(4) == 16
    ensures Pow2(5) == 32 && Pow2(8) == 256
  {
    assert Pow2(5) == 2 * Pow2(4) && Pow2(6) == 2 * Pow2(5) && Pow2(7) == 2 * Pow2(6);
  }

  lemma {:induction false} BitsSplit(v: nat, m: nat, n: nat)
    ensures LowBits(v, m + n) == LowBits(ShiftedRight(v, n), m) + LowBits(v, n)
    decreases n
  {
    if n > 0 {
      BitsSplit(v / 2, m, n - 1);
      assert LowBits(v, m + n) == LowBits(v / 2, m + n - 1) + [v % 2 == 1];
    }
  }

  lemma {:induction false} MaskKeepsBits(v: nat, n: nat)
    ensures LowBits(Masked(v, n), n) == LowBits(v, n)
    decreases n
  {
    if n > 0 {
      MaskKeepsBits(v / 2, n - 1);
    }
  }

  /** Only the lowest bits matter. */
  lemma {:induction false} HigherBitsIgnored(high: nat, low: nat, n: nat)
    ensures LowBits(high * Pow2(n) + low, n) == LowBits(low, n)
    decreases n
  {
    if n > 0 {
      var half := Pow2(n - 1);
      assert high * Pow2(n) == 2 * (high * half);
      assert (high * Pow2(n) + low) / 2 == high * half + low / 2;
      HigherBitsIgnored(high, low / 2, n - 1);
    }
  }

  lemma {:induction false} ValueOfBits(v: nat, n: nat)
    requires v < Pow2(n)
    ensures Value(LowBits(v, n)) == v
    decreases n
  {
    if n > 0 {
      ValueOfBits(v / 2, n - 1);
      var bits := LowBits(v, n);
      assert bits[..n - 1] == LowBits(v / 2, n - 1);
    }
  }

  lemma {:induction false} BitsOfValue(bits: Bits)
    ensures Value(bits) < Pow2(|bits|)
    ensures LowBits(Value(bits), |bits|) == bits
  {
    if bits != [] {
      BitsOfValue(bits[..|bits| - 1]);
      assert bits == bits[..|bits| - 1] + [bits[|bits| - 1]];
    }
  }

  lemma {:induction false} ZerosShift(bits: Bits, n: nat)
    ensures Value(bits + Zeros(n)) == Value(bits) * Pow2(n)
    decreases n
  {
    if n == 0 {
      assert bits + Zeros(0) == bits;
    } else {
      ZerosShift(bits, n - 1);
      var longer := bits + Zeros(n);
      assert longer[..|longer| - 1] == bits + Zeros(n - 1);
      assert Value(bits) * Pow2(n) == 2 * (Value(bits) * Pow2(n - 1));
    }
  }

  lemma {:induction false} JoinedAppend(numbers: seq<nat>, last: nat, width: nat)
    ensures Joined(numbers + [last], width) == Joined(numbers, width) + LowBits(last, width)
  {
    if numbers == [] {
      assert numbers + [last] == [last];
      assert Joined([last], width) == LowBits(last, width) + Joined([], width);
    } else {
      assert (numbers + [last])[1..] == numbers[1..] + [last];
      JoinedAppend(numbers[1..], last, width);
    }
  }

  // ---- the encoding -------------------------------------------------------------------

  const ALPHABET := "ABCDEFGHIJKLMNOPQRSTUVWXYZ234567"
  const PAD: byte := 61

  function Symbol(quintet: nat): byte
    requires quintet < 32
  {
    ALPHABET[quintet] as int
  }

  /** Table 3 of RFC 4648: the letters, then the digits from 2 to 7. */
  lemma SymbolIs(quintet: nat)
    requires quintet < 32
    ensures Symbol(quintet) as int == if quintet < 26 then 65 + quintet else 50 + quintet - 26
  {
    assert ALPHABET == ['A', 'B', 'C', 'D', 'E', 'F', 'G', 'H', 'I', 'J', 'K', 'L', 'M', 'N', 'O', 'P', 'Q', 'R', 'S', 'T', 'U', 'V', 'W',
                        'X', 'Y', 'Z', '2', '3', '4', '5', '6', '7'];
  }

  predicate IsQuintets(numbers: seq<nat>) {
    forall i | 0 <= i < |numbers| :: numbers[i] < 32
  }

  function Symbols(quintets: seq<nat>): (text: Bytes)
    requires IsQuintets(quintets)
    ensures |text| == |quintets|
  {
    seq(|quintets|, i requires 0 <= i < |quintets| => Symbol(quintets[i]))
  }

  function BitsOf(value: Bytes): Bits {
    Joined(value, 8)
  }

  /** Five bits at a time; zeros complete the last group. */
  function Quintets(bits: Bits): (numbers: seq<nat>)
    ensures |numbers| == (|bits| + 4) / 5
    decreases |bits|
  {
    if bits == [] then []
    else if |bits| < 5 then [Value(bits + Zeros(5 - |bits|))]
    else [Value(bits[..5])] + Quintets(bits[5..])
  }

  lemma {:induction false} QuintetsAreSmall(bits: Bits)
    ensures IsQuintets(Quintets(bits))
    decreases |bits|
  {
    Powers();
    if 0 < |bits| < 5 {
      BitsOfValue(bits + Zeros(5 - |bits|));
    } else if bits != [] {
      BitsOfValue(bits[..5]);
      QuintetsAreSmall(bits[5..]);
    }
  }

  function Padding(n: nat): (pad: Bytes)
    ensures |pad| == (8 - n % 8) % 8
  {
    seq((8 - n % 8) % 8, _ => PAD)
  }

  /** What section 6 of RFC 4648 makes of `value`. */
  function Encoded(value: Bytes): Bytes {
    QuintetsAreSmall(BitsOf(value));
    var body := Symbols(Quintets(BitsOf(value)));
    body + Padding(|body|)
  }

  lemma EightMore(a: nat, last: nat)
    requires last < 8
    ensures (8 * a + last) % 8 == last
  {
  }

  lemma PaddedLength(n: nat)
    ensures var symbols := (8 * n + 4) / 5; symbols + (8 - symbols % 8) % 8 == 8 * ((n + 4) / 5)
  {
    var a, b := n / 5, n % 5;
    var last := (8 * b + 4) / 5;
    assert n == 5 * a + b;
    assert (8 * n + 4) / 5 == 8 * a + last;
    assert b == 0 || b == 1 || b == 2 || b == 3 || b == 4;
    EightMore(a, last);
    assert (n + 4) / 5 == a + (b + 4) / 5;
  }

  /** Eight symbols for every five bytes begun. */
  lemma EncodedLength(value: Bytes)
    ensures |Encoded(value)| == 8 * ((|value| + 4) / 5)
  {
    hide Quintets;
    QuintetsAreSmall(BitsOf(value));
    PaddedLength(|value|);
  }

  lemma SymbolsAppend(quintets: seq<nat>, last: nat)
    requires IsQuintets(quintets) && last < 32
    ensures IsQuintets(quintets + [last]) && Symbols(quintets + [last]) == Symbols(quintets) + [Symbol(last)]
  {
    hide Symbol;
  }

  // ---- the encoder ----------------------------------------------------------------------

  lemma {:induction false} QuintetsCons(group: Bits, rest: Bits)
    requires |group| == 5
    ensures Quintets(group + rest) == [Value(group)] + Quintets(rest)
  {
    hide Value;
    assert (group + rest)[..5] == group && (group + rest)[5..] == rest;
  }

  lemma {:induction false} FiveBits(n: nat)
    requires n < 32
    ensures Value(LowBits(n, 5)) == n
  {
    Powers();
    ValueOfBits(n, 5);
  }

  /** A group that is complete is settled, whatever follows. */
  lemma {:induction false} QuintetsOfJoined(numbers: seq<nat>, tail: Bits)
    requires IsQuintets(numbers) && |tail| < 5
    ensures Quintets(Joined(numbers, 5) + tail) == numbers + Quintets(tail)
    decreases |numbers|
  {
    hide Value, LowBits, Quintets;
    if numbers == [] {
      assert Joined(numbers, 5) + tail == tail;
    } else {
      var rest := Joined(numbers[1..], 5) + tail;
      assert Joined(numbers, 5) + tail == LowBits(numbers[0], 5) + rest;
      QuintetsCons(LowBits(numbers[0], 5), rest);
      FiveBits(numbers[0]);
      QuintetsOfJoined(numbers[1..], tail);
      assert numbers == [numbers[0]] + numbers[1..];
    }
  }

  /** Shifting a byte in appends its eight bits; no bit leaves a 16-bit word. */
  lemma ByteShiftedIn(accumulator: nat, bits: nat, b: byte)
    requires bits <= 4 && accumulator < Pow2(bits)
    ensures accumulator * 256 + b < 0x1000
    ensures LowBits(accumulator * 256 + b, bits + 8) == LowBits(accumulator, bits) + LowBits(b, 8)
  {
    Powers();
    assert Pow2(bits) <= 16;
    var word := accumulator * 256 + b;
    BitsSplit(word, bits, 8);
    HigherBitsIgnored(accumulator, b, 8);
    EightShifts(accumulator, b);
  }

  lemma {:induction false} TwoShifts(v: nat, n: nat)
    ensures ShiftedRight(v, n + 2) == ShiftedRight(v / 4, n)
  {
    assert ShiftedRight(v, n + 2) == ShiftedRight(v / 2, n + 1);
    assert v / 2 / 2 == v / 4;
  }

  lemma EightShifts(high: nat, b: byte)
    ensures ShiftedRight(high * 256 + b, 8) == high
  {
    TwoShifts(high * 256 + b, 6);
    TwoShifts(high * 64 + b / 4, 4);
    TwoShifts(high * 16 + b / 16, 2);
    TwoShifts(high * 4 + b / 64, 0);
  }

  /** The five bits that leave the accumulator are the highest that were left in it. */
  lemma QuintetTakenOut(accumulator: nat, bits: nat)
    ensures LowBits(accumulator, bits + 5) == LowBits(ShiftedRight(accumulator, bits) % 32, 5) + LowBits(accumulator, bits)
  {
    BitsSplit(accumulator, 5, bits);
    Powers();
    var shifted := ShiftedRight(accumulator, bits);
    HigherBitsIgnored(shifted / 32, shifted % 32, 5);
  }

  /** The last group is the bits that are left, moved up to the top of five. */
  lemma {:induction false} LastQuintet(accumulator: nat, bits: nat)
    requires 0 < bits <= 4 && accumulator < Pow2(bits)
    ensures Quintets(LowBits(accumulator, bits)) == [accumulator * Pow2(5 - bits)]
    ensures accumulator * Pow2(5 - bits) < 32
  {
    hide LowBits, Value, Pow2;
    var left := LowBits(accumulator, bits);
    ZerosShift(left, 5 - bits);
    ValueOfBits(accumulator, bits);
    QuintetsAreSmall(left);
    assert Quintets(left) == [Value(left + Zeros(5 - bits))];
    assert Quintets(left)[0] < 32;
  }

  /** What was read so far is in the symbols that were written and the bits that are left. */
  ghost predicate Holds(read: Bytes, output: Bytes, quintets: seq<nat>, accumulator: nat, bits: nat) {
    && IsQuintets(quintets) && output == Symbols(quintets)
    && BitsOf(read) == Joined(quintets, 5) + LowBits(accumulator, bits)
  }

  lemma NothingRead()
    ensures Holds([], [], [], 0, 0) && Pow2(0) == 1
  {
  }

  lemma {:induction false} ByteRead(read: Bytes, output: Bytes, quintets: seq<nat>, accumulator: nat, bits: nat, b: byte)
    requires Holds(read, output, quintets, accumulator, bits) && bits <= 4 && accumulator < Pow2(bits)
    ensures accumulator * 256 < 0x10000 - 256
    ensures Holds(read + [b], output, quintets, accumulator * 256 + b, bits + 8)
  {
    hide LowBits, Joined, Pow2;
    JoinedAppend(read, b, 8);
    ByteShiftedIn(accumulator, bits, b);
  }

  lemma {:induction false} QuintetWritten(read: Bytes, output: Bytes, quintets: seq<nat>, accumulator: nat, bits: nat)
    requires Holds(read, output, quintets, accumulator, bits + 5)
    ensures var quintet := ShiftedRight(accumulator, bits) % 32;
            Holds(read, output + [Symbol(quintet)], quintets + [quintet], accumulator, bits)
  {
    hide LowBits, Joined, Symbol, ShiftedRight, Symbols;
    QuintetTakenOut(accumulator, bits);
    var quintet := ShiftedRight(accumulator, bits) % 32;
    JoinedAppend(quintets, quintet, 5);
    SymbolsAppend(quintets, quintet);
  }

  lemma {:induction false} BitsMasked(read: Bytes, output: Bytes, quintets: seq<nat>, accumulator: nat, bits: nat)
    requires Holds(read, output, quintets, accumulator, bits)
    ensures Holds(read, output, quintets, Masked(accumulator, bits), bits)
  {
    hide LowBits, Joined;
    MaskKeepsBits(accumulator, bits);
  }

  /** With at most four bits left the last symbol completes the text. */
  lemma LastWritten(read: Bytes, output: Bytes, quintets: seq<nat>, accumulator: nat, bits: nat)
    requires Holds(read, output, quintets, accumulator, bits) && bits <= 4 && accumulator < Pow2(bits)
    ensures bits > 0 ==> accumulator * Pow2(5 - bits) < 32
    ensures var whole := if bits > 0 then output + [Symbol(accumulator * Pow2(5 - bits) % 32)] else output;
            Encoded(read) == whole + Padding(|whole|)
  {
    hide LowBits, Joined, Quintets, Symbol, Pow2, Symbols;
    QuintetsOfJoined(quintets, LowBits(accumulator, bits));
    EncodedIs(read);
    if bits > 0 {
      LastQuintet(accumulator, bits);
      SymbolsAppend(quintets, accumulator * Pow2(5 - bits));
    } else {
      NothingLeft(accumulator);
      assert quintets + [] == quintets;
    }
  }

  method EncodeBase32(value: Bytes) returns (output: Bytes)
    ensures output == Encoded(value)
  {
    hide Holds, Symbol, Encoded, Pow2, ShiftedRight, Masked;
    output := [];
    var accumulator, bits := 0, 0;
    ghost var quintets: seq<nat> := [];
    NothingRead();
    assert value[..0] == [];
    for i := 0 to |value|
      invariant 0 <= bits <= 4 && 0 <= accumulator < Pow2(bits)
      invariant Holds(value[..i], output, quintets, accumulator, bits)
    {
      assert value[..i + 1] == value[..i] + [value[i]];
      ByteRead(value[..i], output, quintets, accumulator, bits, value[i]);
      accumulator := accumulator * 256 % 0x10000 + value[i];
      bits := bits + 8;
      while bits >= 5
        invariant 0 <= bits <= 12 && 0 <= accumulator < 0x10000
        invariant Holds(value[..i + 1], output, quintets, accumulator, bits)
      {
        bits := bits - 5;
        QuintetWritten(value[..i + 1], output, quintets, accumulator, bits);
        quintets := quintets + [ShiftedRight(accumulator, bits) % 32];
        output := output + [Symbol(ShiftedRight(accumulator, bits) % 32)];
      }
      BitsMasked(value[..i + 1], output, quintets, accumulator, bits);
      accumulator := Masked(accumulator, bits);
    }
    assert value[..|value|] == value;
    LastWritten(value, output, quintets, accumulator, bits);
    if bits > 0 {
      output := output + [Symbol(accumulator * Pow2(5 - bits) % 32)];
    }
    output := PadToEight(output);
  }

  method PadToEight(body: Bytes) returns (output: Bytes)
    ensures output == body + Padding(|body|)
  {
    output := body;
    while |output| % 8 != 0
      invariant |body| <= |output| <= |body| + |Padding(|body|)|
      invariant output == body + Padding(|body|)[..|output| - |body|]
      decreases |body| + 8 - |output|
    {
      output := output + [PAD];
    }
    assert |output| == |body| + |Padding(|body|)|;
    assert Padding(|body|)[..|Padding(|body|)|] == Padding(|body|);
  }

  lemma {:induction false} NothingLeft(accumulator: nat)
    ensures Quintets(LowBits(accumulator, 0)) == []
  {
  }

  lemma EncodedIs(value: Bytes)
    ensures IsQuintets(Quintets(BitsOf(value)))
    ensures Encoded(value) == Symbols(Quintets(BitsOf(value))) + Padding(|Quintets(BitsOf(value))|)
  {
    QuintetsAreSmall(BitsOf(value));
  }

  // ---- the decoder ------------------------------------------------------------------------

  /** The place of a symbol in the alphabet; 32 when it has none. */
  function Lookup(symbol: byte): (quintet: nat)
    ensures quintet <= 32
  {
    if 65 <= symbol <= 90 then symbol - 65
    else if 50 <= symbol <= 55 then symbol - 24
    else 32
  }

  function WithoutPadding(text: Bytes): Bytes {
    if text != [] && text[|text| - 1] == PAD then WithoutPadding(text[..|text| - 1]) else text
  }

  function Octets(bits: Bits): Bytes
    decreases |bits|
  {
    if |bits| < 8 then []
    else
      EightBits(bits[..8]);
      [Value(bits[..8])] + Octets(bits[8..])
  }

  lemma {:induction false} EightBits(bits: Bits)
    requires |bits| == 8
    ensures Value(bits) < 256
  {
    BitsOfValue(bits);
    Powers();
  }

  /** Section 6 of RFC 4648, refusing what is not canonical: a length that is not a multiple
      of eight, a foreign symbol, a whole unused symbol, or unused bits that are set. */
  function Decoded(text: Bytes): Option<Bytes> {
    var body := WithoutPadding(text);
    if |text| % 8 != 0 || |text| - |body| >= 8 || exists i | 0 <= i < |body| :: Lookup(body[i]) == 32 then None
    else
      var bits := Joined(Looked(body), 5);
      if |bits| % 8 >= 5 || bits[|bits| - |bits| % 8..] != Zeros(|bits| % 8) then None
      else Some(Octets(bits))
  }

  lemma SymbolFound(quintet: nat)
    requires quintet < 32
    ensures Lookup(Symbol(quintet)) == quintet && Symbol(quintet) != PAD
  {
  }

  lemma {:induction false} PaddingStripped(body: Bytes, n: nat)
    requires body == [] || body[|body| - 1] != PAD
    ensures WithoutPadding(body + seq(n, _ => PAD)) == body
    decreases n
  {
    var text := body + seq(n, _ => PAD);
    if n == 0 {
      assert text == body;
    } else {
      assert text[..|text| - 1] == body + seq(n - 1, _ => PAD);
      PaddingStripped(body, n - 1);
    }
  }

  lemma {:induction false} OneGroup(group: Bits, others: seq<nat>)
    requires |group| == 5
    ensures Joined([Value(group)] + others, 5) == group + Joined(others, 5)
  {
    BitsOfValue(group);
    assert ([Value(group)] + others)[1..] == others;
  }

  /** How many zeros complete the last group of `n` bits. */
  function Spare(n: nat): nat {
    (5 - n % 5) % 5
  }

  lemma SpareSteps(n: nat)
    ensures Spare(n) == if n == 0 then 0 else if n < 5 then 5 - n else Spare(n - 5)
  {
  }

  /** The groups give the bits back, and the zeros that completed the last of them. */
  lemma {:induction false} BitsOfQuintets(bits: Bits)
    ensures Joined(Quintets(bits), 5) == bits + Zeros(Spare(|bits|))
    decreases |bits|
  {
    hide Value, Joined, LowBits, Spare;
    SpareSteps(|bits|);
    var none: seq<nat> := [];
    assert Joined(none, 5) == [];
    if bits == [] {
    } else if |bits| < 5 {
      var group := bits + Zeros(5 - |bits|);
      OneGroup(group, none);
      assert [Value(group)] + none == [Value(group)];
      assert group + [] == group;
    } else {
      var others := bits[5..];
      OneGroup(bits[..5], Quintets(others));
      BitsOfQuintets(others);
      assert bits == bits[..5] + others;
      assert bits[..5] + (others + Zeros(Spare(|others|))) == bits + Zeros(Spare(|others|));
    }
  }

  lemma {:induction false} OctetsOfBits(value: Bytes, tail: Bits)
    requires |tail| < 8
    ensures Octets(BitsOf(value) + tail) == value
    decreases |value|
  {
    if value == [] {
      assert BitsOf(value) + tail == tail;
    } else {
      var bits := BitsOf(value) + tail;
      assert bits[..8] == LowBits(value[0], 8);
      assert bits[8..] == BitsOf(value[1..]) + tail;
      Powers();
      ValueOfBits(value[0], 8);
      OctetsOfBits(value[1..], tail);
    }
  }

  function Looked(body: Bytes): (quintets: seq<nat>)
    ensures |quintets| == |body|
  {
    seq(|body|, i requires 0 <= i < |body| => Lookup(body[i]))
  }

  lemma SymbolsFound(quintets: seq<nat>)
    requires IsQuintets(quintets)
    ensures Looked(Symbols(quintets)) == quintets
    ensures forall i | 0 <= i < |quintets| :: Lookup(Symbols(quintets)[i]) < 32 && Symbols(quintets)[i] != PAD
  {
    hide Symbol, Lookup;
    forall i | 0 <= i < |quintets| ensures Lookup(Symbols(quintets)[i]) == quintets[i] && Symbols(quintets)[i] != PAD {
      SymbolFound(quintets[i]);
    }
  }

  /** When the decoder accepts, and what it returns then. */
  lemma {:induction false} DecodesTo(text: Bytes, body: Bytes, bits: Bits, n: nat, spare: nat)
    requires WithoutPadding(text) == body && |text| % 8 == 0 && |text| - |body| < 8
    requires forall i | 0 <= i < |body| :: Lookup(body[i]) < 32
    requires |bits| == n * 8 && spare < 5 && Joined(Looked(body), 5) == bits + Zeros(spare)
    ensures Decoded(text) == Some(Octets(bits + Zeros(spare)))
  {
    hide WithoutPadding, Lookup, Joined, Octets, Looked;
    SpareBits(bits, n, spare);
  }

  /** The decoder gives back exactly the bytes that were encoded. */
  lemma RoundTrip(value: Bytes)
    ensures Decoded(Encoded(value)) == Some(value)
  {
    hide Quintets, Joined, Octets, Symbol, Lookup, LowBits, WithoutPadding, Symbols, Decoded, Encoded, Spare, Looked, Zeros;
    var bits := BitsOf(value);
    var quintets := Quintets(bits);
    EncodedIs(value);
    SymbolsFound(quintets);
    PaddingStripped(Symbols(quintets), |Padding(|quintets|)|);
    assert Padding(|quintets|) == seq(|Padding(|quintets|)|, _ => PAD);
    BitsOfQuintets(bits);
    var spare := Spare(|bits|);
    SpareIsShort(|bits|);
    OctetsOfBits(value, Zeros(spare));
    EncodedFits(value);
    DecodesTo(Encoded(value), Symbols(quintets), bits, |value|, spare);
  }

  lemma EncodedFits(value: Bytes)
    ensures |Encoded(value)| % 8 == 0 && |Encoded(value)| - |Quintets(BitsOf(value))| < 8
  {
    hide Quintets, Encoded;
    EncodedIs(value);
    EncodedLength(value);
  }

  lemma SpareIsShort(n: nat)
    ensures Spare(n) < 5
  {
  }

  lemma SpareBits(bits: Bits, n: nat, spare: nat)
    requires |bits| == n * 8 && spare < 5
    ensures |bits + Zeros(spare)| % 8 == spare
    ensures (bits + Zeros(spare))[|bits|..] == Zeros(spare)
  {
  }
}
