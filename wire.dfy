/**
  Byte-level vocabulary shared by every component of the model: fixed-width
  unsigned integers, their big-endian encodings, ASCII literals and the
  UTF-8 well-formedness rule that Rust's `String::from_utf8` enforces.
 */
module Wire {

  type byte = x: int | 0 <= x < 0x100
  type u16 = x: int | 0 <= x < 0x1_0000
  type u32 = x: int | 0 <= x < 0x1_0000_0000
  type u64 = x: int | 0 <= x < 0x1_0000_0000_0000_0000

  const U16_MOD: nat := 0x1_0000
  const U32_MOD: nat := 0x1_0000_0000
  const U64_MOD: nat := 0x1_0000_0000_0000_0000

  /** The outcome of an operation that can fail with an error of type E. */
  datatype Result<+T, +E> = Ok(value: T) | Err(error: E)

  datatype Option<+T> = None | Some(value: T)

  // ---------------------------------------------------------------------
  // Big-endian integers (`put_u16`/`put_u32`/`to_be_bytes` and
  // `get_u16`/`get_u32`/`from_be_bytes`)
  // ---------------------------------------------------------------------

  function Be16(x: u16): (r: seq<byte>)
    ensures |r| == 2
  {
    [x / 0x100, x % 0x100]
  }

  function Be32(x: u32): (r: seq<byte>)
    ensures |r| == 4
  {
    Be16(x / U16_MOD) + Be16(x % U16_MOD)
  }

  function Be64(x: u64): (r: seq<byte>)
    ensures |r| == 8
  {
    Be32(x / U32_MOD) + Be32(x % U32_MOD)
  }

  /** The u16 stored big-endian at s[i..i+2]. */
  function U16At(s: seq<byte>, i: nat): u16
    requires i + 2 <= |s|
  {
    (s[i] as int) * 0x100 + s[i + 1] as int
  }

  /** The u32 stored big-endian at s[i..i+4]. */
  function U32At(s: seq<byte>, i: nat): u32
    requires i + 4 <= |s|
  {
    (U16At(s, i) as int) * U16_MOD + U16At(s, i + 2) as int
  }

  /** The u64 stored big-endian at s[i..i+8]. */
  function U64At(s: seq<byte>, i: nat): u64
    requires i + 8 <= |s|
  {
    (U32At(s, i) as int) * U32_MOD + U32At(s, i + 4) as int
  }

  lemma Be16Decodes(x: u16, s: seq<byte>, i: nat)
    requires i + 2 <= |s| && s[i..i + 2] == Be16(x)
    ensures U16At(s, i) == x
  {
    assert s[i] == Be16(x)[0] && s[i + 1] == Be16(x)[1];
  }

  lemma Be32Decodes(x: u32, s: seq<byte>, i: nat)
    requires i + 4 <= |s| && s[i..i + 4] == Be32(x)
    ensures U32At(s, i) == x
  {
    assert s[i..i + 2] == Be32(x)[..2] == Be16(x / U16_MOD);
    assert s[i + 2..i + 4] == Be32(x)[2..] == Be16(x % U16_MOD);
    Be16Decodes(x / U16_MOD, s, i);
    Be16Decodes(x % U16_MOD, s, i + 2);
  }

  lemma Be64Decodes(x: u64, s: seq<byte>, i: nat)
    requires i + 8 <= |s| && s[i..i + 8] == Be64(x)
    ensures U64At(s, i) == x
  {
    assert s[i..i + 4] == Be64(x)[..4] == Be32(x / U32_MOD);
    assert s[i + 4..i + 8] == Be64(x)[4..] == Be32(x % U32_MOD);
    Be32Decodes(x / U32_MOD, s, i);
    Be32Decodes(x % U32_MOD, s, i + 4);
  }

  /** Reading a u16 back and re-encoding it gives the same two bytes. */
  lemma U16AtEncodes(s: seq<byte>, i: nat)
    requires i + 2 <= |s|
    ensures Be16(U16At(s, i)) == s[i..i + 2]
  {
  }

  lemma U32AtEncodes(s: seq<byte>, i: nat)
    requires i + 4 <= |s|
    ensures Be32(U32At(s, i)) == s[i..i + 4]
  {
    var hi, lo := U16At(s, i), U16At(s, i + 2);
    assert U32At(s, i) / U16_MOD == hi && U32At(s, i) % U16_MOD == lo;
    U16AtEncodes(s, i);
    U16AtEncodes(s, i + 2);
    assert s[i..i + 4] == s[i..i + 2] + s[i + 2..i + 4];
  }

  /** Big-endian encoding is injective: distinct integers give distinct bytes. */
  lemma Be64Injective(x: u64, y: u64)
    requires Be64(x) == Be64(y)
    ensures x == y
  {
    Be64Decodes(x, Be64(x), 0);
    Be64Decodes(y, Be64(y), 0);
  }

  // ---------------------------------------------------------------------
  // Growable byte buffers (`Vec<u8>`)
  // ---------------------------------------------------------------------

  /** A `Vec<u8>`: its contents and its allocated capacity. */
  datatype Buffer = Buffer(data: seq<byte>, capacity: nat)

  /** `vec![0u8; n]`. */
  function Zeros(n: nat): (r: seq<byte>)
    ensures |r| == n
    ensures forall i | 0 <= i < n :: r[i] == 0
  {
    seq(n, _ => 0)
  }

  /**
    The capacity after making room for `size` elements in a vector of
    capacity `cap`: unchanged when it suffices, otherwise the standard
    library's amortised growth, max(2 * cap, size, 8).
   */
  function Grown(cap: nat, size: nat): (c: nat)
    ensures c >= size && c >= cap
    ensures size <= cap ==> c == cap
  {
    if size <= cap then cap
    else if 2 * cap >= size && 2 * cap >= 8 then 2 * cap
    else if size >= 8 then size
    else 8
  }

  // ---------------------------------------------------------------------
  // Clock: instants and durations are natural numbers of nanoseconds
  // ---------------------------------------------------------------------

  const NANOS_PER_SEC: nat := 1_000_000_000

  /** `later.duration_since(earlier)`, which saturates at zero. */
  function Elapsed(later: nat, earlier: nat): (d: nat)
    ensures earlier <= later ==> earlier + d == later
    ensures later < earlier ==> d == 0
  {
    if later >= earlier then later - earlier else 0
  }

  // ---------------------------------------------------------------------
  // ASCII text
  // ---------------------------------------------------------------------

  predicate IsAscii(s: string) {
    forall i | 0 <= i < |s| :: s[i] as int < 0x80
  }

  /** The bytes of an ASCII string literal (`"..".as_bytes()`); only ASCII text is given to it. */
  function Ascii(s: string): (r: seq<byte>)
    ensures |r| == |s|
    ensures forall i | 0 <= i < |s| :: r[i] == (s[i] as int) % 0x100
    ensures IsAscii(s) ==> forall i | 0 <= i < |s| :: r[i] == s[i] as int
  {
    seq(|s|, i requires 0 <= i < |s| => (s[i] as int) % 0x100)
  }

  predicate IsAsciiBytes(s: seq<byte>) {
    forall i | 0 <= i < |s| :: s[i] < 0x80
  }

  // ---------------------------------------------------------------------
  // UTF-8 (the well-formed byte sequences of Table 3-7 of the Unicode
  // standard, which is what `String::from_utf8` accepts)
  // ---------------------------------------------------------------------

  predicate IsCont(b: byte) {
    0x80 <= b <= 0xBF
  }

  /** Length of the well-formed encoded character at the start of s, or 0 if there is none. */
  function CharWidth(s: seq<byte>): (n: nat)
    requires |s| > 0
    ensures n <= 4 && n <= |s|
  {
    var b := s[0];
    if b < 0x80 then 1
    else if 0xC2 <= b <= 0xDF then
      (if |s| >= 2 && IsCont(s[1]) then 2 else 0)
    else if b == 0xE0 then
      (if |s| >= 3 && 0xA0 <= s[1] <= 0xBF && IsCont(s[2]) then 3 else 0)
    else if 0xE1 <= b <= 0xEC || 0xEE <= b <= 0xEF then
      (if |s| >= 3 && IsCont(s[1]) && IsCont(s[2]) then 3 else 0)
    else if b == 0xED then
      (if |s| >= 3 && 0x80 <= s[1] <= 0x9F && IsCont(s[2]) then 3 else 0)
    else if b == 0xF0 then
      (if |s| >= 4 && 0x90 <= s[1] <= 0xBF && IsCont(s[2]) && IsCont(s[3]) then 4 else 0)
    else if 0xF1 <= b <= 0xF3 then
      (if |s| >= 4 && IsCont(s[1]) && IsCont(s[2]) && IsCont(s[3]) then 4 else 0)
    else if b == 0xF4 then
      (if |s| >= 4 && 0x80 <= s[1] <= 0x8F && IsCont(s[2]) && IsCont(s[3]) then 4 else 0)
    else 0
  }

  predicate ValidUtf8(s: seq<byte>)
    decreases |s|
  {
    s == [] || (CharWidth(s) > 0 && ValidUtf8(s[CharWidth(s)..]))
  }

  /** A character's width depends only on its own bytes, so appending bytes does not change it. */
  lemma CharWidthAppend(a: seq<byte>, b: seq<byte>)
    requires |a| > 0 && CharWidth(a) > 0
    ensures CharWidth(a + b) == CharWidth(a)
  {
    var s := a + b;
    assert s[0] == a[0];
    if |a| >= 2 { assert s[1] == a[1]; }
    if |a| >= 3 { assert s[2] == a[2]; }
    if |a| >= 4 { assert s[3] == a[3]; }
  }

  /** Well-formed UTF-8 is closed under concatenation. */
  lemma {:induction false} Utf8Concat(a: seq<byte>, b: seq<byte>)
    requires ValidUtf8(a) && ValidUtf8(b)
    ensures ValidUtf8(a + b)
    decreases |a|
  {
    if a == [] {
      assert a + b == b;
    } else {
      var n := CharWidth(a);
      CharWidthAppend(a, b);
      assert (a + b)[n..] == a[n..] + b;
      Utf8Concat(a[n..], b);
    }
  }

  /** ASCII text is well-formed UTF-8. */
  lemma {:induction false} AsciiIsUtf8(s: seq<byte>)
    requires IsAsciiBytes(s)
    ensures ValidUtf8(s)
    decreases |s|
  {
    if s != [] {
      assert CharWidth(s) == 1;
      assert IsAsciiBytes(s[1..]) by {
        forall i | 0 <= i < |s[1..]| ensures s[1..][i] < 0x80 {
          assert s[1..][i] == s[i + 1];
        }
      }
      AsciiIsUtf8(s[1..]);
    }
  }

  lemma AsciiLiteralIsUtf8(s: string)
    requires IsAscii(s)
    ensures ValidUtf8(Ascii(s))
  {
    AsciiIsUtf8(Ascii(s));
  }

  // ---------------------------------------------------------------------
  // Splitting text at a separator (Rust's `str::split`, Go's `strings.Split`)
  // ---------------------------------------------------------------------

  /** Splitting at every occurrence of `sep`: the pieces between separators, empty ones included. */
  function Split(s: seq<byte>, sep: byte): (r: seq<seq<byte>>)
    ensures |r| >= 1
    decreases |s|
  {
    if s == [] then [[]]
    else
      var rest := Split(s[1..], sep);
      if s[0] == sep then [[]] + rest else [[s[0]] + rest[0]] + rest[1..]
  }

  /** A text without the separator is a single piece. */
  lemma {:induction false} SplitWithoutSeparator(s: seq<byte>, sep: byte)
    requires sep !in s
    ensures Split(s, sep) == [s]
    decreases |s|
  {
    if s != [] {
      SplitWithoutSeparator(s[1..], sep);
      assert [s[0]] + s[1..] == s;
    }
  }

  /** Splitting at the first separator: the piece before it, then the pieces of the rest. */
  lemma {:induction false} SplitAtSeparator(a: seq<byte>, sep: byte, b: seq<byte>)
    requires sep !in a
    ensures Split(a + [sep] + b, sep) == [a] + Split(b, sep)
    decreases |a|
  {
    var s := a + [sep] + b;
    if a == [] {
      assert s[1..] == b;
    } else {
      assert s[1..] == a[1..] + [sep] + b;
      SplitAtSeparator(a[1..], sep, b);
      assert [s[0]] + a[1..] == a;
    }
  }
}
