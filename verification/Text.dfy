/** The string helpers the program takes from the C++ library and libjingle:
    `std::string::compare`, `split`, whitespace extraction, decimal printing,
    `atoi`, and the hexadecimal codec. */
module Text {

  datatype Option<+T> = None | Some(value: T)

  type Byte = b: int | 0 <= b < 256

  /** The range of a C `int`. */
  type CInt = n: int | -0x8000_0000 <= n < 0x8000_0000

  const ID_SIZE := 40               // kIdSize: hex digits of an identity
  const ID_BYTES := 20              // kIdBytesLen
  const SHORT_LEN := 8              // kShortLen: bytes of a short key

  // ---------- std::string::compare ----------

  /** Lexicographic comparison: negative, zero or positive. */
  function Compare(a: string, b: string): int {
    if a == "" then (if b == "" then 0 else -1)
    else if b == "" then 1
    else if a[0] < b[0] then -1
    else if b[0] < a[0] then 1
    else Compare(a[1..], b[1..])
  }

  predicate Less(a: string, b: string) {
    Compare(a, b) < 0
  }

  /** The order is antisymmetric, and only equal strings compare as zero. */
  lemma {:induction false} CompareTotal(a: string, b: string)
    ensures Compare(b, a) == -Compare(a, b)
    ensures Compare(a, b) == 0 <==> a == b
  {
    if a != "" && b != "" {
      CompareTotal(a[1..], b[1..]);
      assert a == [a[0]] + a[1..] && b == [b[0]] + b[1..];
    }
  }

  /** `a` and `b` first differ at `k`, and `a` has the smaller character there. */
  ghost predicate SmallerAt(a: string, b: string, k: nat) {
    k < |a| && k < |b| && a[..k] == b[..k] && a[k] < b[k]
  }

  /** The lexicographic order: a proper prefix, or the smaller character where the two
      first differ. */
  ghost predicate Below(a: string, b: string) {
    a < b || exists k: nat :: SmallerAt(a, b, k)
  }

  lemma {:induction false} NegativeIsBelow(a: string, b: string)
    ensures Compare(a, b) < 0 <==> Below(a, b)
  {
    if a == "" || b == "" {
    } else if a[0] != b[0] {
      FirstDecides(a, b);
    } else {
      NegativeIsBelow(a[1..], b[1..]);
      BelowTail(a, b);
    }
  }

  lemma FirstDecides(a: string, b: string)
    requires a != "" && b != "" && a[0] != b[0]
    ensures Below(a, b) <==> a[0] < b[0]
  {
    assert a[0] < b[0] ==> SmallerAt(a, b, 0);
    forall k: nat | 0 < k <= |a| && k <= |b| ensures a[..k] != b[..k] {
      assert a[..k][0] == a[0] && b[..k][0] == b[0];
    }
  }

  lemma BelowTail(a: string, b: string)
    requires a != "" && b != "" && a[0] == b[0]
    ensures Below(a, b) <==> Below(a[1..], b[1..])
  {
    assert a == [a[0]] + a[1..] && b == [b[0]] + b[1..];
    forall k: nat | SmallerAt(a, b, k) ensures k > 0 && SmallerAt(a[1..], b[1..], k - 1) {
      assert a[1..][..k - 1] == a[..k][1..] && b[1..][..k - 1] == b[..k][1..];
    }
    forall k: nat | SmallerAt(a[1..], b[1..], k) ensures SmallerAt(a, b, k + 1) {
      assert a[..k + 1] == [a[0]] + a[1..][..k] && b[..k + 1] == [b[0]] + b[1..][..k];
    }
  }

  /** The sign of a comparison is the lexicographic order. */
  lemma CompareIsLexicographic(a: string, b: string)
    ensures Compare(a, b) < 0 <==> Below(a, b)
    ensures Compare(a, b) > 0 <==> Below(b, a)
    ensures Compare(a, b) == 0 <==> a == b
  {
    NegativeIsBelow(a, b);
    NegativeIsBelow(b, a);
    CompareTotal(a, b);
  }

  /** For two strings of one length the first differing character decides. */
  lemma FirstDifferenceDecides(a: string, b: string, k: nat)
    requires |a| == |b| && k < |a| && a[..k] == b[..k] && a[k] != b[k]
    ensures Below(a, b) <==> a[k] < b[k]
  {
    assert a[k] < b[k] ==> SmallerAt(a, b, k);
    if b[k] < a[k] {
      assert SmallerAt(b, a, k);
      CompareIsLexicographic(a, b);
    }
    assert a < b ==> a == b;
  }

  lemma {:induction false} LessTransitive(a: string, b: string, c: string)
    requires Less(a, b) && Less(b, c)
    ensures Less(a, c)
  {
    if a != "" && a[0] == b[0] && b[0] == c[0] {
      LessTransitive(a[1..], b[1..], c[1..]);
    }
  }

  // ---------- split, join and stream extraction ----------

  /** `talk_base::split`: every delimiter ends a field, and empty fields are kept. */
  function Split(s: string, delim: char): (fields: seq<string>)
    ensures |fields| >= 1
  {
    if s == "" then [""]
    else
      var rest := Split(s[1..], delim);
      if s[0] == delim then [""] + rest else [[s[0]] + rest[0]] + rest[1..]
  }

  function Join(fields: seq<string>, delim: char): string
    requires |fields| >= 1
  {
    if |fields| == 1 then fields[0] else fields[0] + [delim] + Join(fields[1..], delim)
  }

  lemma {:induction false} SplitPlain(s: string, delim: char)
    requires delim !in s
    ensures Split(s, delim) == [s]
  {
    if s != "" {
      SplitPlain(s[1..], delim);
      assert s == [s[0]] + s[1..];
    }
  }

  lemma {:induction false} SplitFirst(f: string, rest: string, delim: char)
    requires delim !in f
    ensures Split(f + [delim] + rest, delim) == [f] + Split(rest, delim)
  {
    var s := f + [delim] + rest;
    if f == "" {
      assert s[1..] == rest;
    } else {
      assert s[1..] == f[1..] + [delim] + rest;
      SplitFirst(f[1..], rest, delim);
      assert f == [f[0]] + f[1..];
    }
  }

  /** Splitting undoes joining when no field holds the delimiter. */
  lemma {:induction false} SplitJoin(fields: seq<string>, delim: char)
    requires |fields| >= 1
    requires forall f :: f in fields ==> delim !in f
    ensures Split(Join(fields, delim), delim) == fields
  {
    if |fields| == 1 {
      SplitPlain(fields[0], delim);
    } else {
      SplitJoin(fields[1..], delim);
      SplitFirst(fields[0], Join(fields[1..], delim), delim);
    }
  }

  /** There is one field more than there are delimiters. */
  lemma {:induction false} SplitCount(s: string, delim: char)
    ensures |Split(s, delim)| == multiset(s)[delim] + 1
  {
    if s != "" {
      SplitCount(s[1..], delim);
      assert s == [s[0]] + s[1..];
    }
  }

  /** A field is made of characters of the source other than the delimiter. */
  lemma {:induction false} SplitFieldChars(s: string, delim: char)
    ensures forall f, c :: f in Split(s, delim) && c in f ==> c in s && c != delim
  {
    if s != "" {
      SplitFieldChars(s[1..], delim);
      var rest := Split(s[1..], delim);
      assert forall c :: c in rest[0] ==> c in s[1..] && c != delim;
    }
  }

  /** `isspace` in the C locale: codes 9 to 13, and the space. */
  predicate IsSpace(c: char): (r: bool)
    ensures r <==> 9 <= c as int <= 13 || c as int == 32
  {
    c == ' ' || c == '\t' || c == '\n' || c == '\r' || c == 11 as char || c == 12 as char
  }

  predicate NoSpace(s: string) {
    forall c :: c in s ==> !IsSpace(c)
  }

  /** Length of the run of non-space characters at the start of `s`. */
  function WordLength(s: string): (n: nat)
    ensures n <= |s| && NoSpace(s[..n])
    ensures n < |s| ==> IsSpace(s[n])
  {
    if s == "" || IsSpace(s[0]) then 0
    else
      var n := 1 + WordLength(s[1..]);
      assert s[..n] == [s[0]] + s[1..][..n - 1];
      n
  }

  function SkipSpace(s: string): (r: string)
    ensures |r| <= |s|
    ensures r != "" ==> !IsSpace(r[0])
  {
    if s != "" && IsSpace(s[0]) then SkipSpace(s[1..]) else s
  }

  /** The words `stream >> word` extracts one after another. */
  function Words(s: string): seq<string>
    decreases |s|
  {
    var t := SkipSpace(s);
    if t == "" then []
    else
      var n := WordLength(t);
      assert n > 0;
      [t[..n]] + Words(t[n..])
  }

  lemma {:induction false} WordLengthAt(w: string, rest: string)
    requires NoSpace(w)
    requires rest != "" ==> IsSpace(rest[0])
    ensures WordLength(w + rest) == |w|
  {
    if w == "" {
      assert w + rest == rest;
    } else {
      assert (w + rest)[1..] == w[1..] + rest;
      WordLengthAt(w[1..], rest);
    }
  }

  /** The words, each behind one space. */
  function Spaced(words: seq<string>): string {
    if words == [] then "" else " " + words[0] + Spaced(words[1..])
  }

  lemma {:induction false} SpacedSnoc(words: seq<string>, w: string)
    ensures Spaced(words + [w]) == Spaced(words) + " " + w
  {
    if words == [] {
      assert [w][1..] == [];
    } else {
      assert (words + [w])[1..] == words[1..] + [w];
      SpacedSnoc(words[1..], w);
    }
  }

  predicate AllSpace(gap: string) {
    forall c :: c in gap ==> IsSpace(c)
  }

  lemma {:induction false} SkipGap(gap: string, rest: string)
    requires AllSpace(gap)
    ensures SkipSpace(gap + rest) == SkipSpace(rest)
  {
    if gap == "" {
      assert gap + rest == rest;
    } else {
      assert gap[0] in gap && (gap + rest)[1..] == gap[1..] + rest;
      SkipGap(gap[1..], rest);
    }
  }

  /** Extraction skips any run of white space and takes the word behind it, which ends at
      the next white space; behind the last word there is nothing. */
  lemma WordsStep(gap: string, w: string, rest: string)
    requires AllSpace(gap) && NoSpace(w) && (rest != "" ==> IsSpace(rest[0]))
    ensures w != "" ==> Words(gap + w + rest) == [w] + Words(rest)
    ensures Words(gap) == []
  {
    SkipGap(gap, "");
    assert gap + "" == gap;
    if w != "" {
      var t := w + rest;
      assert gap + w + rest == gap + t;
      assert t[0] == w[0] && w[0] in w;
      SkipGap(gap, t);
      WordLengthAt(w, rest);
      assert t[..|w|] == w && t[|w|..] == rest;
    }
  }

  /** Extraction undoes spacing when no word is empty or holds white space. */
  lemma {:induction false} WordsSpaced(words: seq<string>)
    requires forall w :: w in words ==> w != "" && NoSpace(w)
    ensures Words(Spaced(words)) == words
  {
    if words != [] {
      var w, tail := words[0], words[1..];
      assert w in words && forall v :: v in tail ==> v in words;
      WordsSpaced(tail);
      WordsStep(" ", w, Spaced(tail));
      assert words == [w] + tail;
    }
  }

  lemma {:induction false} WordsHaveNoSpace(s: string)
    ensures forall w :: w in Words(s) ==> NoSpace(w)
    decreases |s|
  {
    var t := SkipSpace(s);
    if t != "" {
      WordsHaveNoSpace(t[WordLength(t)..]);
    }
  }

  // ---------- decimal numbers ----------

  predicate IsDigit(c: char) {
    '0' <= c <= '9'
  }

  function Digits(n: nat): (s: string)
    ensures s != "" && forall c :: c in s ==> IsDigit(c)
    ensures s[0] == '0' <==> n == 0
  {
    if n < 10 then [('0' as int + n) as char] else Digits(n / 10) + [('0' as int + n % 10) as char]
  }

  /** What `ostream << n` prints. */
  function Decimal(n: int): string {
    if n < 0 then "-" + Digits(0 - n) else Digits(n)
  }

  function DigitsValue(acc: nat, s: string): nat
    decreases |s|
  {
    if s == "" || !IsDigit(s[0]) then acc
    else DigitsValue(10 * acc + (s[0] as int - '0' as int), s[1..])
  }

  function Clamp(n: int): CInt {
    if n < -0x8000_0000 then -0x8000_0000 else if n >= 0x8000_0000 then 0x7fff_ffff else n
  }

  /** `atoi`: white space, an optional sign, then digits.  C leaves a value outside
      `int` undefined; here it is clamped. */
  function AtoI(s: string): CInt {
    var t := SkipSpace(s);
    if t != "" && t[0] == '-' then Clamp(0 - DigitsValue(0, t[1..]))
    else if t != "" && t[0] == '+' then Clamp(DigitsValue(0, t[1..]))
    else Clamp(DigitsValue(0, t))
  }

  lemma {:induction false} DigitsValueSnoc(acc: nat, s: string, d: char)
    requires IsDigit(d) && forall c :: c in s ==> IsDigit(c)
    ensures DigitsValue(acc, s + [d]) == 10 * DigitsValue(acc, s) + (d as int - '0' as int)
    decreases |s|
  {
    if s == "" {
      assert s + [d] == [d];
    } else {
      assert (s + [d])[1..] == s[1..] + [d] && s[0] in s;
      DigitsValueSnoc(10 * acc + (s[0] as int - '0' as int), s[1..], d);
    }
  }

  lemma {:induction false} DigitsValueDigits(n: nat)
    ensures DigitsValue(0, Digits(n)) == n
  {
    if n >= 10 {
      DigitsValueDigits(n / 10);
      DigitsValueSnoc(0, Digits(n / 10), ('0' as int + n % 10) as char);
    }
  }

  /** Reading back a printed `int` gives that `int`. */
  lemma {:induction false} AtoIDecimal(n: CInt)
    ensures AtoI(Decimal(n)) == n
  {
    if n < 0 {
      DigitsValueDigits(0 - n);
      assert Decimal(n)[1..] == Digits(0 - n);
    } else {
      DigitsValueDigits(n);
      assert Decimal(n)[0] in Decimal(n);
    }
  }

  lemma {:induction false} DigitsValueStops(acc: nat, s: string, rest: string)
    requires forall c :: c in s ==> IsDigit(c)
    requires rest != "" ==> !IsDigit(rest[0])
    ensures DigitsValue(acc, s + rest) == DigitsValue(acc, s)
    decreases |s|
  {
    if s == "" {
      assert s + rest == rest;
    } else {
      assert (s + rest)[1..] == s[1..] + rest && s[0] in s;
      DigitsValueStops(10 * acc + (s[0] as int - '0' as int), s[1..], rest);
    }
  }

  lemma DigitsThenRest(n: nat, rest: string)
    requires rest != "" ==> !IsDigit(rest[0])
    ensures DigitsValue(0, Digits(n) + rest) == n && IsDigit((Digits(n) + rest)[0])
  {
    DigitsValueStops(0, Digits(n), rest);
    DigitsValueDigits(n);
    assert Digits(n)[0] in Digits(n);
  }

  /** `atoi` skips white space, reads one optional sign and the digits behind it, and stops
      at the first other character. */
  lemma AtoIReads(gap: string, sign: string, n: nat, rest: string)
    requires AllSpace(gap) && sign in {"", "+", "-"} && (rest != "" ==> !IsDigit(rest[0]))
    ensures AtoI(gap + (sign + (Digits(n) + rest))) == Clamp(if sign == "-" then 0 - n else n)
  {
    var number := Digits(n) + rest;
    var t := sign + number;
    DigitsThenRest(n, rest);
    SkipGap(gap, t);
    assert t[0] == if sign == "" then number[0] else sign[0];
    assert SkipSpace(t) == t;
    assert if sign == "" then t == number else t[1..] == number;
  }

  // ---------- hexadecimal ----------

  const HEX := "0123456789abcdef"

  function HexEncode(bytes: seq<Byte>): (s: string)
    ensures |s| == 2 * |bytes|
  {
    if bytes == [] then "" else [HEX[bytes[0] / 16], HEX[bytes[0] % 16]] + HexEncode(bytes[1..])
  }

  function HexValue(c: char): (r: Option<int>)
    ensures r.Some? ==> 0 <= r.value < 16
  {
    if '0' <= c <= '9' then Some(c as int - '0' as int)
    else if 'a' <= c <= 'f' then Some(c as int - 'a' as int + 10)
    else if 'A' <= c <= 'F' then Some(c as int - 'A' as int + 10)
    else None
  }

  function HexByte(h: char, l: char): Option<Byte> {
    if HexValue(h).Some? && HexValue(l).Some? then Some(16 * HexValue(h).value + HexValue(l).value) else None
  }

  /** `hex_decode`; `None` stands for its failure on an odd length or a bad digit. */
  function HexDecode(s: string): (r: Option<seq<Byte>>)
    ensures r.Some? ==> 2 * |r.value| == |s|
  {
    if s == "" then Some([])
    else if |s| == 1 then None
    else
      var b, rest := HexByte(s[0], s[1]), HexDecode(s[2..]);
      if b.Some? && rest.Some? then Some([b.value] + rest.value) else None
  }

  predicate LowerHex(s: string) {
    forall c :: c in s ==> '0' <= c <= '9' || 'a' <= c <= 'f'
  }

  lemma HexDigit(n: int)
    requires 0 <= n < 16
    ensures HexValue(HEX[n]) == Some(n)
  {
    if n < 10 {
      assert HEX[n] == ('0' as int + n) as char;
    } else {
      assert HEX[n] == ('a' as int + n - 10) as char;
    }
  }

  lemma HexLowerDigit(c: char)
    requires '0' <= c <= '9' || 'a' <= c <= 'f'
    ensures HexValue(c).Some? && HEX[HexValue(c).value] == c
  {
    var n := HexValue(c).value;
    assert HEX[n] == if n < 10 then ('0' as int + n) as char else ('a' as int + n - 10) as char;
  }

  /** The two digits of one byte, read back. */
  lemma HexByteOfDigits(b: Byte)
    ensures HexByte(HEX[b / 16], HEX[b % 16]) == Some(b)
  {
    HexDigit(b / 16);
    HexDigit(b % 16);
  }

  /** Two lower-case digits, decoded and printed again. */
  lemma DigitsOfHexByte(h: char, l: char)
    requires LowerHex([h, l])
    ensures HexByte(h, l).Some? && HexEncode([HexByte(h, l).value]) == [h, l]
  {
    assert h in [h, l] && l in [h, l];
    HexLowerDigit(h);
    HexLowerDigit(l);
    var b := HexByte(h, l).value;
    assert b / 16 == HexValue(h).value && b % 16 == HexValue(l).value;
  }

  lemma HexEncodeCons(b: Byte, rest: seq<Byte>)
    ensures HexEncode([b] + rest) == HexEncode([b]) + HexEncode(rest)
  {
    assert ([b] + rest)[1..] == rest && [b][1..] == [];
  }

  lemma {:induction false} HexDecodeEncode(bytes: seq<Byte>)
    ensures HexDecode(HexEncode(bytes)) == Some(bytes)
  {
    if bytes != [] {
      var b, rest := bytes[0], bytes[1..];
      assert bytes == [b] + rest;
      HexDecodeEncode(rest);
      HexByteOfDigits(b);
      assert HexEncode(bytes)[2..] == HexEncode(rest);
    }
  }

  lemma {:induction false} HexEncodeDecode(s: string)
    requires |s| % 2 == 0 && LowerHex(s)
    ensures HexDecode(s).Some? && HexEncode(HexDecode(s).value) == s
  {
    if s != "" {
      var h, l := s[0], s[1];
      assert h in s && l in s && forall c :: c in s[2..] ==> c in s;
      HexEncodeDecode(s[2..]);
      DigitsOfHexByte(h, l);
      HexEncodeCons(HexByte(h, l).value, HexDecode(s[2..]).value);
      assert s == [h, l] + s[2..];
    }
  }

  /** Distinct byte strings have distinct encodings. */
  lemma HexEncodeInjective(a: seq<Byte>, b: seq<Byte>)
    requires HexEncode(a) == HexEncode(b)
    ensures a == b
  {
    HexDecodeEncode(a);
    HexDecodeEncode(b);
  }

  /** Byte `i` is printed as its two digits, the high one first. */
  lemma {:induction false} HexEncodeAt(bytes: seq<Byte>, i: nat)
    requires i < |bytes|
    ensures HexEncode(bytes)[2 * i] == "0123456789abcdef"[bytes[i] / 16]
    ensures HexEncode(bytes)[2 * i + 1] == "0123456789abcdef"[bytes[i] % 16]
  {
    if i > 0 {
      HexEncodeAt(bytes[1..], i - 1);
    }
  }

  lemma {:induction false} HexEncodePrefix(bytes: seq<Byte>, n: nat)
    requires n <= |bytes|
    ensures HexEncode(bytes)[..2 * n] == HexEncode(bytes[..n])
  {
    if n > 0 {
      HexEncodePrefix(bytes[1..], n - 1);
      assert bytes[..n][1..] == bytes[1..][..n - 1];
    }
  }

  /** Encoding the first `n` bytes of a decoded identity gives its first `2n` digits. */
  lemma HexPrefix(s: string, n: nat)
    requires |s| % 2 == 0 && 2 * n <= |s| && LowerHex(s)
    ensures HexDecode(s).Some? && HexEncode(HexDecode(s).value[..n]) == s[..2 * n]
  {
    HexEncodeDecode(s);
    HexEncodePrefix(HexDecode(s).value, n);
  }
}
