/**
 * Spatial addressing (src/constants.ts and the helpers its callers import from it):
 * JavaScript's truncated remainder, `mod`, global -> chunk / local coordinates and the
 * canonical chunk name "cx|cy|cz" with its parser.
 */
module Addressing {
  import opened Wrappers

  datatype Coord = Coord(x: int, y: int, z: int)

  const ChunkSize: int := 16

  function Abs(n: int): nat { if n < 0 then -n else n }

  /** The quotient of JavaScript's remainder: n / m truncated toward zero. */
  function JsQuot(n: int, m: int): int
    requires m != 0
  {
    var q := Abs(n) / Abs(m);
    if (n >= 0) == (m > 0) then q else -q
  }

  /** JavaScript `n % m`: the remainder of division truncated toward zero; its sign is the sign of n. */
  function JsRem(n: int, m: int): (r: int)
    requires m != 0
    ensures n >= 0 ==> 0 <= r < Abs(m)
    ensures n < 0 ==> 0 - Abs(m) < r <= 0
    ensures n == JsQuot(n, m) * m + r
  {
    var a, b := Abs(n), Abs(m);
    var q, mag := a / b, a % b;
    assert a == q * b + mag;
    QuotientSigns(n, m, q, mag);
    if n >= 0 then mag else -mag
  }

  lemma QuotientSigns(n: int, m: int, q: int, mag: int)
    requires m != 0 && Abs(n) == q * Abs(m) + mag && q == Abs(n) / Abs(m)
    ensures n == JsQuot(n, m) * m + (if n >= 0 then mag else -mag)
  {
    if n >= 0 && m > 0 {
    } else if n >= 0 {
      assert q * Abs(m) == (-q) * m;
    } else if m > 0 {
      assert -n == q * m + mag;
      assert n == (-q) * m - mag;
    } else {
      assert -n == q * (-m) + mag;
      assert n == q * m - mag;
    }
  }

  lemma {:induction false} MulAtLeast(a: int, m: int)
    requires a >= 1 && m > 0
    ensures a * m >= m
    decreases a
  {
    if a > 1 {
      MulAtLeast(a - 1, m);
      assert a * m == (a - 1) * m + m;
    }
  }

  /** Division with a remainder in [0, |m|) is unique: it is Dafny's Euclidean `/` and `%`. */
  lemma UniqueRemainder(n: int, m: int, q: int, r: int)
    requires m != 0 && 0 <= r < Abs(m) && n == q * m + r
    ensures r == n % m && q == n / m
  {
    var q', r' := n / m, n % m;
    assert n == q' * m + r';
    assert (q - q') * m == r' - r;
    var d := if q > q' then q - q' else q' - q;
    if q != q' {
      assert d * Abs(m) == Abs((q - q') * m);
      MulAtLeast(d, Abs(m));
      assert false;
    }
  }

  /** `mod(n, m)` of src/constants.ts: `((n % m) + m) % m` with JavaScript's `%`. */
  function Mod(n: int, m: int): (r: int)
    requires m != 0
    ensures m > 0 ==> 0 <= r < m
    ensures m < 0 ==> m < r <= 0
  {
    JsRem(JsRem(n, m) + m, m)
  }

  /** For m > 0 the source's `mod` is the mathematical (always non-negative) modulo. */
  lemma ModIsEuclidean(n: int, m: int)
    requires m > 0
    ensures Mod(n, m) == n % m
  {
    var r1 := JsRem(n, m);
    var q1 := JsQuot(n, m);
    var q2 := JsQuot(r1 + m, m);
    var r := Mod(n, m);
    assert r1 + m == q2 * m + r;
    assert n == (q1 + q2 - 1) * m + r;
    UniqueRemainder(n, m, q1 + q2 - 1, r);
  }

  lemma Decompose(x: int, d: int)
    requires d > 0
    ensures x == (x / d) * d + x % d
  {
  }

  lemma NegatedFactor(a: int, b: int)
    ensures a * -b == -(a * b)
  {
  }

  /** For a negative modulus, `mod` is the negated `mod` of the negated operands. */
  lemma ModNegated(n: int, m: int)
    requires m < 0
    ensures Mod(n, m) == -Mod(-n, -m)
  {
    var r := JsRem(n, -m);
    assert JsRem(n, m) == r;
    assert JsRem(-n, -m) == -r;
    assert JsRem(r + m, m) == -JsRem(-r - m, -m);
  }

  /** For a negative modulus `mod` is not the Euclidean remainder: mod(5, -3) is -1, while 5 % -3 is 2. */
  lemma NegativeModulusDiffers()
    ensures Mod(5, -3) == -1 && 5 % -3 == 2
  {
  }

  /** n - mod(n, m) is a multiple of m, for either sign of m. */
  lemma ModDifferenceDivisible(n: int, m: int)
    requires m != 0
    ensures (n - Mod(n, m)) % m == 0
  {
    if m > 0 {
      ModIsEuclidean(n, m);
      UniqueRemainder(n - Mod(n, m), m, n / m, 0);
    } else {
      NegativeDifference(n, m);
      UniqueRemainder(n - Mod(n, m), m, -n / -m, 0);
    }
  }

  /** For m < 0, n - mod(n, m) is k·m for the quotient k of -n by -m. */
  lemma NegativeDifference(n: int, m: int)
    requires m < 0
    ensures n - Mod(n, m) == (-n / -m) * m
  {
    var big, x := -m, -n;
    ModNegated(n, m);
    ModIsEuclidean(x, big);
    var k := x / big;
    Decompose(x, big);
    NegatedFactor(k, m);
  }

  lemma ModOfSmall(n: int, m: int)
    requires 0 <= n < m
    ensures Mod(n, m) == n
  {
    ModIsEuclidean(n, m);
    UniqueRemainder(n, m, 0, n);
  }

  lemma ModIdempotent(n: int, m: int)
    requires m != 0
    ensures Mod(Mod(n, m), m) == Mod(n, m)
  {
    if m > 0 {
      ModOfSmall(Mod(n, m), m);
    } else {
      ModNegated(n, m);
      ModNegated(Mod(n, m), m);
      ModOfSmall(Mod(-n, -m), -m);
    }
  }

  lemma ModPeriodic(n: int, k: int, m: int)
    requires m != 0
    ensures Mod(n + k * m, m) == Mod(n, m)
    decreases if m > 0 then 0 else 1
  {
    if m < 0 {
      ModNegated(n, m);
      ModNegated(n + k * m, m);
      NegatedFactor(k, m);
      assert -(n + k * m) == -n + k * -m;
      ModPeriodic(-n, k, -m);
      return;
    }
    var q, r := n / m, n % m;
    assert n + k * m == (q + k) * m + r by {
      assert (q + k) * m == q * m + k * m;
    }
    UniqueRemainder(n + k * m, m, q + k, r);
    ModIsEuclidean(n, m);
    ModIsEuclidean(n + k * m, m);
  }

  /** Chunk coordinate of a global coordinate: floor(g / 16). Dafny's `/` by a positive divisor rounds down. */
  function ChunkCoord(g: int): (c: int)
    ensures c * ChunkSize <= g < c * ChunkSize + ChunkSize
  {
    g / ChunkSize
  }

  /** Local coordinate inside the chunk: `mod(g, 16)`. */
  function LocalCoord(g: int): (l: int)
    ensures 0 <= l < ChunkSize
  {
    Mod(g, ChunkSize)
  }

  /** The composition round-trips for every integer, negative ones included. */
  lemma RoundTrip(g: int)
    ensures ChunkCoord(g) * ChunkSize + LocalCoord(g) == g
  {
    ModIsEuclidean(g, ChunkSize);
  }

  /** A local coordinate in a chunk is addressed back to that chunk and that local coordinate. */
  lemma {:induction false} SplitOfJoin(c: int, l: int)
    requires 0 <= l < ChunkSize
    ensures ChunkCoord(c * ChunkSize + l) == c && LocalCoord(c * ChunkSize + l) == l
  {
    ModIsEuclidean(c * ChunkSize + l, ChunkSize);
  }

  // ---------------------------------------------------------------------------
  // Decimal text of integers (template literals) and parseInt

  function DigitChar(d: int): char
    requires 0 <= d < 10
  {
    "0123456789"[d]
  }

  predicate IsDigit(ch: char) { '0' <= ch <= '9' }

  predicate IsHexDigit(ch: char) { IsDigit(ch) || 'a' <= ch <= 'f' || 'A' <= ch <= 'F' }

  /** A digit of the radix parseInt settled on: 16 after a "0x" prefix, 10 otherwise. */
  predicate InRadix(ch: char, radix: nat)
  {
    if radix == 16 then IsHexDigit(ch) else IsDigit(ch)
  }

  function DigitValue(ch: char): int
    requires IsHexDigit(ch)
  {
    if IsDigit(ch) then ch as int - '0' as int
    else if 'a' <= ch <= 'f' then ch as int - 'a' as int + 10
    else ch as int - 'A' as int + 10
  }

  function NatToString(n: nat): (s: string)
    ensures |s| > 0 && forall i :: 0 <= i < |s| ==> IsDigit(s[i])
    decreases n
  {
    if n < 10 then [DigitChar(n)] else NatToString(n / 10) + [DigitChar(n % 10)]
  }

  /** `${i}` for an integer. */
  function IntToString(i: int): (s: string)
    ensures |s| > 0 && '|' !in s
  {
    if i < 0 then "-" + NatToString(-i) else NatToString(i)
  }

  function DigitsValue(s: string, radix: nat): nat
    requires forall i :: 0 <= i < |s| ==> IsHexDigit(s[i])
  {
    if |s| == 0 then 0 else DigitsValue(s[..|s| - 1], radix) * radix + DigitValue(s[|s| - 1])
  }

  /** The longest prefix of s made of digits of the radix: as far as parseInt reads. */
  function DigitPrefix(s: string, radix: nat): (d: string)
    ensures |d| <= |s| && d == s[..|d|]
    ensures forall i :: 0 <= i < |d| ==> InRadix(d[i], radix)
  {
    if |s| > 0 && InRadix(s[0], radix) then [s[0]] + DigitPrefix(s[1..], radix) else []
  }

  /** The white space and line terminators that parseInt skips. */
  predicate IsSpace(ch: char)
  {
    ch == ' ' || ch == '\t' || ch == '\n' || ch == '\r' || ch == '\U{B}' || ch == '\U{C}'
    || ch == '\U{A0}' || ch == '\U{1680}' || '\U{2000}' <= ch <= '\U{200A}' || ch == '\U{2028}'
    || ch == '\U{2029}' || ch == '\U{202F}' || ch == '\U{205F}' || ch == '\U{3000}' || ch == '\U{FEFF}'
  }

  function TrimStart(s: string): (t: string)
    ensures |t| <= |s|
  {
    if |s| > 0 && IsSpace(s[0]) then TrimStart(s[1..]) else s
  }

  /** The value of the digits a radix admits at the start of body, None when there is none. */
  function LeadingValue(body: string, radix: nat): Option<nat>
  {
    var d := DigitPrefix(body, radix);
    if |d| == 0 then None else Some(DigitsValue(d, radix))
  }

  /** An unsigned number: hexadecimal after "0x" / "0X", decimal otherwise. */
  function ParseUnsigned(body: string): Option<nat>
  {
    if |body| >= 2 && body[0] == '0' && (body[1] == 'x' || body[1] == 'X') then LeadingValue(body[2..], 16)
    else LeadingValue(body, 10)
  }

  /**
   * `parseInt(s)` without a radix: leading white space, an optional sign, then the longest run of
   * decimal digits, or of hexadecimal digits after "0x" / "0X". NaN (None) when that run is empty.
   */
  function ParseInt(s: string): (r: Option<int>)
    ensures TrimStart(s) == [] ==> r.None?
    ensures r.Some? && r.value < 0 ==> TrimStart(s)[0] == '-'
  {
    var t := TrimStart(s);
    if |t| > 0 && t[0] == '-' then
      match ParseUnsigned(t[1..])
      case Some(v) => Some(0 - v)
      case None => None
    else if |t| > 0 && t[0] == '+' then
      match ParseUnsigned(t[1..])
      case Some(v) => Some(v)
      case None => None
    else
      match ParseUnsigned(t)
      case Some(v) => Some(v)
      case None => None
  }

  lemma {:induction false} NatToStringValue(n: nat)
    ensures DigitsValue(NatToString(n), 10) == n
    decreases n
  {
    if n >= 10 {
      NatToStringValue(n / 10);
      var s := NatToString(n);
      assert s[..|s| - 1] == NatToString(n / 10);
    }
  }

  lemma {:induction false} DigitPrefixOfDigits(s: string)
    requires forall i :: 0 <= i < |s| ==> IsDigit(s[i])
    ensures DigitPrefix(s, 10) == s
  {
    if |s| > 0 {
      DigitPrefixOfDigits(s[1..]);
      assert [s[0]] + s[1..] == s;
    }
  }

  /** A non-empty run of decimal digits is read as its value. */
  lemma UnsignedDigits(t: string)
    requires |t| > 0 && forall i :: 0 <= i < |t| ==> IsDigit(t[i])
    ensures ParseUnsigned(t) == Some(DigitsValue(t, 10))
  {
    if |t| >= 2 { assert IsDigit(t[1]); }
    DigitPrefixOfDigits(t);
  }

  /** Text that starts with a digit or a minus sign has no leading white space to trim. */
  lemma NoLeadingSpace(s: string)
    requires |s| > 0 && (IsDigit(s[0]) || s[0] == '-')
    ensures TrimStart(s) == s
  {
    assert !IsSpace(s[0]);
  }

  /** parseInt reads back the decimal text of a natural number. */
  lemma ParseIntOfNat(n: nat)
    ensures ParseInt(NatToString(n)) == Some(n)
  {
    var t := NatToString(n);
    NatToStringValue(n);
    UnsignedDigits(t);
    NoLeadingSpace(t);
    assert t[0] != '-' && t[0] != '+';
  }

  /** parseInt reads back a minus sign followed by the decimal text of a natural number. */
  lemma ParseIntOfNegative(n: nat)
    ensures ParseInt("-" + NatToString(n)) == Some(0 - n)
  {
    var t := NatToString(n);
    var s := "-" + t;
    NatToStringValue(n);
    UnsignedDigits(t);
    NoLeadingSpace(s);
    assert s[1..] == t;
    assert ParseUnsigned(s[1..]) == Some(n);
  }

  /** parseInt reads back the decimal text of every integer. */
  lemma ParseIntOfString(i: int)
    ensures ParseInt(IntToString(i)) == Some(i)
  {
    if i < 0 {
      assert IntToString(i) == "-" + NatToString(-i);
      ParseIntOfNegative(-i);
    } else {
      assert IntToString(i) == NatToString(i);
      ParseIntOfNat(i);
    }
  }

  // ---------------------------------------------------------------------------
  // Chunk names

  /** `s.split(sep)`: the pieces between separators, always at least one. */
  function Split(s: string, sep: char): (parts: seq<string>)
    ensures |parts| >= 1
  {
    if |s| == 0 then [""]
    else
      var rest := Split(s[1..], sep);
      if s[0] == sep then [""] + rest else [[s[0]] + rest[0]] + rest[1..]
  }

  lemma {:induction false} SplitNoSep(a: string, sep: char)
    requires sep !in a
    ensures Split(a, sep) == [a]
  {
    if |a| > 0 {
      SplitNoSep(a[1..], sep);
      assert [a[0]] + a[1..] == a;
    }
  }

  lemma {:induction false} SplitJoin(a: string, sep: char, b: string)
    requires sep !in a
    ensures Split(a + [sep] + b, sep) == [a] + Split(b, sep)
  {
    if |a| == 0 {
      assert a + [sep] + b == [sep] + b;
      assert ([sep] + b)[1..] == b;
    } else {
      SplitJoin(a[1..], sep, b);
      assert (a + [sep] + b)[1..] == a[1..] + [sep] + b;
      assert [a[0]] + a[1..] == a;
    }
  }

  /** A JavaScript number as the name helpers meet it: an integer, NaN, or undefined (a missing piece). */
  datatype JsNum = Num(n: int) | NaN | Undefined

  function ParseNum(s: string): JsNum
  {
    match ParseInt(s)
    case Some(i) => Num(i)
    case None => NaN
  }

  /** `v + d` and `v - d`: arithmetic on NaN or undefined gives NaN. */
  function AddNum(v: JsNum, d: int): JsNum
  {
    if v.Num? then Num(v.n + d) else NaN
  }

  /** `${v}` */
  function NumString(v: JsNum): string
  {
    match v
    case Num(n) => IntToString(n)
    case NaN => "NaN"
    case Undefined => "undefined"
  }

  /** `createChunkName(x, y, z)`: `${x}|${y}|${z}`. */
  function CreateChunkName(x: JsNum, y: JsNum, z: JsNum): string
  {
    NumString(x) + "|" + NumString(y) + "|" + NumString(z)
  }

  /** The canonical name of a chunk coordinate. */
  function ChunkName(c: Coord): string
  {
    CreateChunkName(Num(c.x), Num(c.y), Num(c.z))
  }

  /**
   * `getChunkPosition(name)` destructured into three numbers: `name.split("|").map(parseInt)`;
   * a piece the split does not produce is undefined, pieces after the third are ignored.
   */
  function ChunkPosition(name: string): (JsNum, JsNum, JsNum)
  {
    var parts := Split(name, '|');
    (ParseNum(parts[0]),
     if |parts| > 1 then ParseNum(parts[1]) else Undefined,
     if |parts| > 2 then ParseNum(parts[2]) else Undefined)
  }

  /** The chunk coordinate a name denotes, None when any of its three numbers is NaN or undefined. */
  function ParseChunkName(name: string): (r: Option<Coord>)
    ensures r.Some? <==> ChunkPosition(name).0.Num? && ChunkPosition(name).1.Num? && ChunkPosition(name).2.Num?
    ensures r.Some? ==> ChunkPosition(name) == (Num(r.value.x), Num(r.value.y), Num(r.value.z))
  {
    match ChunkPosition(name)
    case (Num(x), Num(y), Num(z)) => Some(Coord(x, y, z))
    case _ => None
  }

  lemma ParseChunkNameOfName(c: Coord)
    ensures ParseChunkName(ChunkName(c)) == Some(c)
  {
    var sx, sy, sz := IntToString(c.x), IntToString(c.y), IntToString(c.z);
    SplitNoSep(sz, '|');
    SplitJoin(sy, '|', sz);
    assert sx + "|" + sy + "|" + sz == sx + ['|'] + (sy + ['|'] + sz);
    SplitJoin(sx, '|', sy + ['|'] + sz);
    assert Split(ChunkName(c), '|') == [sx, sy, sz];
    ParseIntOfString(c.x);
    ParseIntOfString(c.y);
    ParseIntOfString(c.z);
  }

  /** Two chunk coordinates are equal iff their canonical names are equal. */
  lemma ChunkNameInjective(a: Coord, b: Coord)
    ensures ChunkName(a) == ChunkName(b) <==> a == b
  {
    ParseChunkNameOfName(a);
    ParseChunkNameOfName(b);
  }

  /** The chunk containing a global position. */
  function ChunkOf(p: Coord): Coord
  {
    Coord(ChunkCoord(p.x), ChunkCoord(p.y), ChunkCoord(p.z))
  }

  /** `getChunkFromPosition(x, y, z)`: the name of the chunk containing the position. */
  function ChunkNameOf(p: Coord): string
  {
    ChunkName(ChunkOf(p))
  }

  /** `getLocalPosition(x, y, z)`: the position inside its chunk, each coordinate in 0..15. */
  function LocalOf(p: Coord): (l: Coord)
    ensures 0 <= l.x < ChunkSize && 0 <= l.y < ChunkSize && 0 <= l.z < ChunkSize
  {
    Coord(LocalCoord(p.x), LocalCoord(p.y), LocalCoord(p.z))
  }

  /** The global position of a local position in a chunk. */
  function Global(c: Coord, l: Coord): Coord
  {
    Coord(c.x * ChunkSize + l.x, c.y * ChunkSize + l.y, c.z * ChunkSize + l.z)
  }

  /** Distinct global positions are distinct (chunk name, local position) slots. */
  lemma SlotsDistinct(p: Coord, q: Coord)
    ensures p == q <==> ChunkNameOf(p) == ChunkNameOf(q) && LocalOf(p) == LocalOf(q)
  {
    ChunkNameInjective(ChunkOf(p), ChunkOf(q));
    RoundTrip(p.x); RoundTrip(p.y); RoundTrip(p.z);
    RoundTrip(q.x); RoundTrip(q.y); RoundTrip(q.z);
  }

  /** Addressing a local position of a chunk gives back that chunk and position. */
  lemma AddressOfGlobal(c: Coord, l: Coord)
    requires 0 <= l.x < ChunkSize && 0 <= l.y < ChunkSize && 0 <= l.z < ChunkSize
    ensures ChunkOf(Global(c, l)) == c && LocalOf(Global(c, l)) == l
  {
    SplitOfJoin(c.x, l.x);
    SplitOfJoin(c.y, l.y);
    SplitOfJoin(c.z, l.z);
  }
}
