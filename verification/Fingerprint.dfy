/** What a root command's approval is bound to: the bytes that are hashed into its fingerprint.
    The hash itself is not part of this model. */
module Fingerprint {
  import opened Wrappers
  import opened ShellDisplay
  import AccessModel

  // ---- UTF-8 ------------------------------------------------------------------------------

  function EncodedChar(c: char): (bytes: Bytes)
    ensures |bytes| > 0
  {
    var n := c as int;
    if n < 0x80 then [n]
    else if n < 0x800 then [0xC0 + n / 64, 0x80 + n % 64]
    else if n < 0x10000 then [0xE0 + n / 4096, 0x80 + n / 64 % 64, 0x80 + n % 64]
    else [0xF0 + n / 262144, 0x80 + n / 4096 % 64, 0x80 + n / 64 % 64, 0x80 + n % 64]
  }

  function Utf8(text: string): Bytes {
    if text == "" then [] else EncodedChar(text[0]) + Utf8(text[1..])
  }

  /** How many bytes a character takes, by its first byte. */
  function CharLength(lead: byte): nat {
    if lead < 0x80 then 1 else if lead < 0xE0 then 2 else if lead < 0xF0 then 3 else 4
  }

  lemma LengthOfChar(c: char)
    ensures |EncodedChar(c)| == CharLength(EncodedChar(c)[0])
  {
  }

  /** The code point that a character's bytes stand for. */
  function CodePoint(b: seq<int>): int {
    if |b| == 1 then b[0]
    else if |b| == 2 then (b[0] - 0xC0) * 64 + b[1] - 0x80
    else if |b| == 3 then (b[0] - 0xE0) * 4096 + (b[1] - 0x80) * 64 + b[2] - 0x80
    else if |b| == 4 then (b[0] - 0xF0) * 262144 + (b[1] - 0x80) * 4096 + (b[2] - 0x80) * 64 + b[3] - 0x80
    else 0
  }

  lemma SixBits(n: nat)
    ensures n == n / 64 * 64 + n % 64
    ensures n / 4096 == n / 64 / 64 && n / 262144 == n / 4096 / 64
  {
  }

  lemma CharDecodes(c: char)
    ensures CodePoint(EncodedChar(c)) == c as int
  {
    var n := c as int;
    SixBits(n);
    SixBits(n / 64);
    SixBits(n / 4096);
  }

  lemma CharIsUnique(c: char, d: char)
    requires EncodedChar(c) == EncodedChar(d)
    ensures c == d
  {
    hide EncodedChar, CodePoint;
    CharDecodes(c);
    CharDecodes(d);
  }

  lemma {:induction false} Utf8IsInjective(a: string, b: string)
    requires Utf8(a) == Utf8(b)
    ensures a == b
    decreases |a|
  {
    hide EncodedChar;
    if a != "" && b != "" {
      var first, other := EncodedChar(a[0]), EncodedChar(b[0]);
      LengthOfChar(a[0]);
      LengthOfChar(b[0]);
      assert first[0] == Utf8(a)[0] && other[0] == Utf8(b)[0];
      assert first == Utf8(a)[..|first|] && other == Utf8(b)[..|other|];
      assert Utf8(a[1..]) == Utf8(a)[|first|..] && Utf8(b[1..]) == Utf8(b)[|other|..];
      CharIsUnique(a[0], b[0]);
      Utf8IsInjective(a[1..], b[1..]);
      assert a == [a[0]] + a[1..] && b == [b[0]] + b[1..];
    }
  }

  // ---- framing -----------------------------------------------------------------------------

  function Pow256(k: nat): nat {
    if k == 0 then 1 else 256 * Pow256(k - 1)
  }

  /** The lowest `k` bytes of `n`, most significant first. */
  function BigEndian(n: nat, k: nat): (bytes: Bytes)
    ensures |bytes| == k
  {
    if k == 0 then [] else BigEndian(n / 256, k - 1) + [n % 256]
  }

  lemma {:induction false} BigEndianIsInjective(n: nat, m: nat, k: nat)
    requires n < Pow256(k) && m < Pow256(k) && BigEndian(n, k) == BigEndian(m, k)
    ensures n == m
    decreases k
  {
    if k > 0 {
      var a, b := BigEndian(n, k), BigEndian(m, k);
      assert a[..k - 1] == BigEndian(n / 256, k - 1) && b[..k - 1] == BigEndian(m / 256, k - 1);
      assert a[k - 1] == n % 256 && b[k - 1] == m % 256;
      BigEndianIsInjective(n / 256, m / 256, k - 1);
    }
  }

  lemma {:induction false} BigEndianDigit(n: nat, k: nat, i: nat)
    requires i < k
    ensures Pow256(k - 1 - i) > 0 && BigEndian(n, k)[i] as int == n / Pow256(k - 1 - i) % 256
    decreases k
  {
    PowPositive(k - 1 - i);
    if i < k - 1 {
      BigEndianDigit(n / 256, k - 1, i);
      PowPositive(k - 2 - i);
      DividedTwice(n, Pow256(k - 2 - i));
    }
  }

  lemma {:induction false} PowPositive(k: nat)
    ensures Pow256(k) > 0
  {
    if k > 0 {
      PowPositive(k - 1);
    }
  }

  lemma DividedTwice(n: nat, p: nat)
    requires p > 0
    ensures n / 256 / p == n / (256 * p)
  {
    var q, r := n / 256, n % 256;
    var a, b := q / p, q % p;
    assert n == 256 * (p * a + b) + r;
    assert 256 * (p * a) == (256 * p) * a;
    assert 0 <= 256 * b + r < 256 * p;
    QuotientIs(n, 256 * p, a, 256 * b + r);
  }

  lemma QuotientIs(n: nat, m: nat, q: nat, r: nat)
    requires m > 0 && n == m * q + r && r < m
    ensures n / m == q
  {
    var d: int := n / m - q;
    assert n == m * (n / m) + n % m;
    assert m * d == r - n % m;
    assert d >= 1 ==> m * d >= m;
    assert d <= -1 ==> m * d + m <= 0;
  }

  /** The length of the first part comes first, its most significant byte first, and then the part. */
  lemma {:induction false} FirstPartFramed(parts: seq<Bytes>, i: nat)
    requires parts != [] && i < 8
    ensures |Framed(parts)| >= 8 + |parts[0]|
    ensures Pow256(7 - i) > 0 && Framed(parts)[i] as int == |parts[0]| / Pow256(7 - i) % 256
    ensures Framed(parts)[8..8 + |parts[0]|] == parts[0]
    ensures Framed(parts)[8 + |parts[0]|..] == Framed(parts[1..])
  {
    hide BigEndian;
    BigEndianDigit(|parts[0]|, 8, i);
    OneFrame(parts[0], Framed(parts[1..]));
    var framed := Framed(parts);
    assert framed[..8][i] == framed[i];
  }

  /** Each part after its length as eight bytes. */
  function Framed(parts: seq<Bytes>): Bytes {
    if parts == [] then [] else BigEndian(|parts[0]|, 8) + parts[0] + Framed(parts[1..])
  }

  /** src/access.rs `hash_parts`: what is given to the hash. */
  method HashInput(parts: seq<Bytes>) returns (input: Bytes)
    ensures input == Framed(parts)
  {
    hide BigEndian;
    input := [];
    for i := 0 to |parts|
      invariant input + Framed(parts[i..]) == Framed(parts)
    {
      assert parts[i..][1..] == parts[i + 1..];
      ghost var before := input;
      input := input + BigEndian(|parts[i]|, 8);
      input := input + parts[i];
      assert input + Framed(parts[i + 1..]) == before + (BigEndian(|parts[i]|, 8) + parts[i] + Framed(parts[i + 1..]));
    }
  }

  predicate Measurable(parts: seq<Bytes>) {
    forall i | 0 <= i < |parts| :: |parts[i]| < Pow256(8)
  }

  lemma {:induction false} OneFrame(part: Bytes, rest: Bytes)
    ensures var framed := BigEndian(|part|, 8) + part + rest;
            framed[..8] == BigEndian(|part|, 8) && framed[8..8 + |part|] == part && framed[8 + |part|..] == rest
  {
    hide BigEndian;
  }

  /** Different lists of parts never give the same bytes. */
  lemma {:induction false} FramingIsInjective(a: seq<Bytes>, b: seq<Bytes>)
    requires Measurable(a) && Measurable(b) && Framed(a) == Framed(b)
    ensures a == b
    decreases |a|
  {
    hide BigEndian, Pow256;
    if a != [] && b != [] {
      OneFrame(a[0], Framed(a[1..]));
      OneFrame(b[0], Framed(b[1..]));
      BigEndianIsInjective(|a[0]|, |b[0]|, 8);
      FramingIsInjective(a[1..], b[1..]);
      assert a == [a[0]] + a[1..] && b == [b[0]] + b[1..];
    }
  }

  // ---- the parts of a root command -------------------------------------------------------------

  function Digit(n: nat): char
    requires n < 16
  {
    "0123456789abcdef"[n]
  }

  lemma DigitIsUnique(n: nat, m: nat)
    requires n < 16 && m < 16 && Digit(n) == Digit(m)
    ensures n == m
  {
  }

  function Decimal(n: nat): (text: string)
    ensures text != ""
  {
    if n < 10 then [Digit(n)] else Decimal(n / 10) + [Digit(n % 10)]
  }

  lemma {:induction false} DecimalHasNoColon(n: nat)
    ensures ':' !in Decimal(n)
  {
    if n >= 10 {
      DecimalHasNoColon(n / 10);
    }
  }

  function Parsed(text: string): nat {
    if text == "" then 0
    else
      var last := text[|text| - 1];
      10 * Parsed(text[..|text| - 1]) + if '0' <= last <= '9' then last as int - '0' as int else 0
  }

  lemma DigitParses(n: nat)
    requires n < 10
    ensures '0' <= Digit(n) <= '9' && Digit(n) as int - '0' as int == n
  {
  }

  lemma {:induction false} DecimalParses(n: nat)
    ensures Parsed(Decimal(n)) == n
  {
    hide Digit;
    var text := Decimal(n);
    DigitParses(n % 10);
    if n < 10 {
      assert text[..0] == "";
    } else {
      DecimalParses(n / 10);
      assert text[..|text| - 1] == Decimal(n / 10);
    }
  }

  function Label(file: AccessModel.FileIdentity): string {
    Decimal(file.device) + ":" + Decimal(file.inode)
  }

  /** What is left of the first colon, and what is right of it. */
  lemma SplitAtColon(a: string, b: string, c: string, d: string)
    requires ':' !in a && ':' !in c && a + ":" + b == c + ":" + d
    ensures a == c && b == d
  {
    var text := a + ":" + b;
    assert text[|a|] == ':' && text[|c|] == ':';
    assert forall i | 0 <= i < |a| :: text[i] == a[i];
    assert forall i | 0 <= i < |c| :: text[i] == c[i];
    assert a == text[..|a|] && c == text[..|c|];
    assert b == text[|a| + 1..] && d == text[|c| + 1..];
  }

  lemma LabelIsInjective(a: AccessModel.FileIdentity, b: AccessModel.FileIdentity)
    requires Label(a) == Label(b)
    ensures a == b
  {
    hide Decimal;
    DecimalHasNoColon(a.device);
    DecimalHasNoColon(b.device);
    SplitAtColon(Decimal(a.device), Decimal(a.inode), Decimal(b.device), Decimal(b.inode));
    DecimalParses(a.device);
    DecimalParses(b.device);
    DecimalParses(a.inode);
    DecimalParses(b.inode);
  }

  /** The 32 hexadecimal digits of an identifier. */
  type Uuid = digits: seq<nat> | |digits| == 32 && forall i | 0 <= i < 32 :: digits[i] < 16
    witness seq(32, _ => 0)

  function Hex(digits: seq<nat>): (text: string)
    requires forall i | 0 <= i < |digits| :: digits[i] < 16
    ensures |text| == |digits|
  {
    seq(|digits|, i requires 0 <= i < |digits| => Digit(digits[i]))
  }

  /** Eight digits, three times four, and twelve. */
  function UuidText(id: Uuid): string {
    Hex(id[..8]) + "-" + Hex(id[8..12]) + "-" + Hex(id[12..16]) + "-" + Hex(id[16..20]) + "-" + Hex(id[20..])
  }

  function Place(i: nat): nat {
    if i < 8 then i else if i < 12 then i + 1 else if i < 16 then i + 2 else if i < 20 then i + 3 else i + 4
  }

  lemma UuidDigit(id: Uuid, i: nat)
    requires i < 32
    ensures Place(i) < |UuidText(id)| && UuidText(id)[Place(i)] == Digit(id[i])
  {
    hide Digit;
    var a, b, c, d := Hex(id[..8]), Hex(id[8..12]), Hex(id[12..16]), Hex(id[16..20]);
    if i < 8 {
      assert a[i] == Digit(id[i]);
    } else if i < 12 {
      assert b[i - 8] == Digit(id[i]);
    } else if i < 16 {
      assert c[i - 12] == Digit(id[i]);
    } else if i < 20 {
      assert d[i - 16] == Digit(id[i]);
    } else {
      assert Hex(id[20..])[i - 20] == Digit(id[i]);
    }
  }

  lemma UuidIsInjective(a: Uuid, b: Uuid)
    requires UuidText(a) == UuidText(b)
    ensures a == b
  {
    hide UuidText, Digit;
    forall i | 0 <= i < 32 ensures a[i] == b[i] {
      UuidDigit(a, i);
      UuidDigit(b, i);
      DigitIsUnique(a[i], b[i]);
    }
  }

  /** A root command as it is filed: the directory as it is displayed, the arguments, the digest
      of the executable, and which files the executable and the directory were. */
  datatype RootCommand = RootCommand(terminal: Uuid, cwd: string, argv: seq<string>, digest: string,
                                     executable: AccessModel.FileIdentity, directory: AccessModel.FileIdentity)

  function Parts(c: RootCommand): seq<string> {
    ["sudo", UuidText(c.terminal), c.cwd, CommandDisplay(c.argv), c.digest, Label(c.executable), Label(c.directory)]
  }

  function Encoded(parts: seq<string>): (bytes: seq<Bytes>)
    ensures |bytes| == |parts|
  {
    seq(|parts|, i requires 0 <= i < |parts| => Utf8(parts[i]))
  }

  function Preimage(c: RootCommand): Bytes {
    Framed(Encoded(Parts(c)))
  }

  lemma EncodedIsInjective(a: seq<string>, b: seq<string>)
    requires Encoded(a) == Encoded(b)
    ensures a == b
  {
    assert |a| == |b|;
    forall i | 0 <= i < |a| ensures a[i] == b[i] {
      assert Encoded(a)[i] == Encoded(b)[i];
      Utf8IsInjective(a[i], b[i]);
    }
  }

  /** Two requests hash the same bytes only if everything the approval is about is the same. */
  lemma FingerprintsAgreeOnlyOnEqualCommands(a: RootCommand, b: RootCommand)
    requires Measurable(Encoded(Parts(a))) && Measurable(Encoded(Parts(b)))
    requires Preimage(a) == Preimage(b)
    ensures a == b
  {
    hide Framed, Encoded, UuidText, CommandDisplay, Label, Measurable;
    FramingIsInjective(Encoded(Parts(a)), Encoded(Parts(b)));
    EncodedIsInjective(Parts(a), Parts(b));
    var p, q := Parts(a), Parts(b);
    assert p[1] == q[1] && p[2] == q[2] && p[3] == q[3] && p[4] == q[4] && p[5] == q[5] && p[6] == q[6];
    UuidIsInjective(a.terminal, b.terminal);
    DisplayIsInjective(a.argv, b.argv);
    LabelIsInjective(a.executable, b.executable);
    LabelIsInjective(a.directory, b.directory);
  }
}
