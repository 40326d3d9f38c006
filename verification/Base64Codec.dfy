/** The loops of `base64_encode` and `base64_decode`, proved against the group-wise definition. */
module Base64Codec {
  import opened Base64
  import opened Wrappers

  const UINT32: nat := 0x1_0000_0000

  // ---------------------------------------------------------------- encoding

  function At(d: seq<Octet>, i: nat): Octet {
    if i < |d| then d[i] else 0
  }

  /** The encoding with missing octets taken as zero and no padding. */
  function Raw(d: seq<Octet>): seq<Char>
    decreases |d|
  {
    if d == [] then []
    else Text(Quad(d[0], At(d, 1), At(d, 2))) + Raw(if |d| < 3 then [] else d[3..])
  }

  lemma {:induction false} RawAppend(x: seq<Octet>, g: seq<Octet>)
    requires |x| % 3 == 0 && 0 < |g| <= 3
    ensures Raw(x + g) == Raw(x) + Text(Quad(g[0], At(g, 1), At(g, 2)))
    decreases |x|
  {
    hide Quad, Text;
    if x == [] {
      assert x + g == g;
      assert |g| == 3 ==> g[3..] == [];
      assert Raw(if |g| < 3 then [] else g[3..]) == [];
    } else {
      RawAppend(x[3..], g);
      assert (x + g)[3..] == x[3..] + g;
    }
  }

  lemma {:induction false} RawSize(d: seq<Octet>)
    ensures |Raw(d)| == (|d| + 2) / 3 * 4
    decreases |d|
  {
    if |d| >= 3 {
      RawSize(d[3..]);
    }
  }

  /** Padding overwrites the characters that stand for no data. */
  lemma {:induction false} RawPadded(d: seq<Octet>)
    ensures var p := Padding(|d|);
            |Raw(d)| >= p && Encoded(d) == Raw(d)[..|Raw(d)| - p] + seq(p, i => '=')
    decreases |d|
  {
    if |d| >= 3 {
      RawPadded(d[3..]);
      RawPaddedFirst(d);
    } else if d != [] {
      RawPaddedLast(d);
    }
  }

  lemma RawPaddedFirst(d: seq<Octet>)
    requires |d| >= 3
    requires var p, r := Padding(|d| - 3), Raw(d[3..]); |r| >= p && Encoded(d[3..]) == r[..|r| - p] + seq(p, i => '=')
    ensures var p, r := Padding(|d|), Raw(d); |r| >= p && Encoded(d) == r[..|r| - p] + seq(p, i => '=')
  {
    hide Quad, Text;
    PaddingSame(|d|);
    var p, r := Padding(|d|), Raw(d[3..]);
    var q := Text(Quad(d[0], d[1], d[2]));
    assert Raw(d) == q + r;
    assert (q + r)[..|q + r| - p] == q + r[..|r| - p];
  }

  lemma RawPaddedLast(d: seq<Octet>)
    requires 0 < |d| < 3
    ensures var p, r := Padding(|d|), Raw(d); |r| >= p && Encoded(d) == r[..|r| - p] + seq(p, i => '=')
  {
    var q := Quad(d[0], At(d, 1), At(d, 2));
    RawShort(d);
    assert |q| == 4;
    hide Quad, Text, Raw;
    if |d| == 1 {
      TextPrefix(q, 2);
      assert seq(2, i => '=') == ['=', '='];
    } else {
      TextPrefix(q, 3);
      assert seq(1, i => '=') == ['='];
    }
  }

  lemma RawShort(d: seq<Octet>)
    requires 0 < |d| < 3
    ensures Raw(d) == Text(Quad(d[0], At(d, 1), At(d, 2)))
  {
    hide Quad, Text;
    assert Raw([]) == [];
  }

  lemma TextPrefix(q: seq<Sextet>, n: nat)
    requires n <= |q|
    ensures Text(q)[..n] == Text(q[..n])
  {
  }

  /** The shifts and masks over the 24-bit group. */
  function Sextets(triple: nat): seq<Sextet> {
    [triple / 0x40000 % 64, triple / 0x1000 % 64, triple / 64 % 64, triple % 64]
  }

  lemma FourDigits(p: nat, q: nat, r: nat, w: nat)
    requires p < 64 && q < 64 && r < 64 && w < 64
    ensures Sextets(p * 0x40000 + q * 0x1000 + r * 64 + w) == [p, q, r, w]
  {
    var t := p * 0x40000 + q * 0x1000 + r * 64 + w;
    Remainder64(t, p * 0x1000 + q * 64 + r, w);
    Remainder64(p * 0x1000 + q * 64 + r, p * 64 + q, r);
    Remainder64(p * 64 + q, p, q);
    Remainder64(p, 0, p);
    Quotients(t, p * 64 + q, r * 64 + w, p, q * 0x1000 + r * 64 + w);
  }

  lemma Quotients(t: nat, q: nat, r: nat, p: nat, s: nat)
    requires t == q * 0x1000 + r && r < 0x1000 && t == p * 0x40000 + s && s < 0x40000
    ensures t / 0x1000 == q && t / 0x40000 == p
  {
  }

  lemma TripleIsQuad(a: Octet, b: Octet, c: Octet)
    ensures Sextets(Triple(a, b, c)) == Quad(a, b, c)
  {
    hide Sextets;
    var p, q, r, w := a / 4, a % 4 * 16 + b / 16, b % 16 * 4 + c / 64, c % 64;
    FourDigits(p, q, r, w);
  }

  function Triple(a: nat, b: nat, c: nat): nat {
    a * 0x10000 + b * 0x100 + c
  }

  /** One round of the encoding loop: up to three octets from position `i`. */
  method EncodeGroup(data: seq<Octet>, i: nat) returns (group: seq<Char>, next: nat)
    requires i < |data|
    ensures i < next <= |data| && (next == i + 3 || (next == |data| && next < i + 3))
    ensures group == Text(Quad(data[i], At(data[i..next], 1), At(data[i..next], 2)))
  {
    hide Quad, Text, Sextets, Triple;
    var a, b, c := data[i], 0, 0;
    next := i + 1;
    if next < |data| {
      b := data[next];
      next := next + 1;
    }
    if next < |data| {
      c := data[next];
      next := next + 1;
    }
    var triple := Triple(a, b, c);
    group := Text(Sextets(triple));
    TripleIsQuad(a, b, c);
  }

  method Base64Encode(data: seq<Octet>) returns (s: seq<Char>)
    ensures s == Encoded(data)
  {
    hide Quad, Text, Raw, Encoded, At;
    s := [];
    var i := 0;
    RawEmpty();
    assert data[..0] == [];
    while i < |data|
      invariant 0 <= i <= |data| && (i % 3 == 0 || i == |data|)
      invariant s == Raw(data[..i])
    {
      ghost var start := i;
      var group;
      group, i := EncodeGroup(data, i);
      s := s + group;
      ghost var g := data[start..i];
      assert data[..i] == data[..start] + g;
      RawAppend(data[..start], g);
    }
    assert data[..|data|] == data;
    RawSize(data);
    RawPadded(data);
    ghost var raw := s;
    var n := if |data| % 3 == 0 then 0 else if |data| % 3 == 1 then 2 else 1;
    for j := 0 to n
      invariant |s| == |raw| && s == raw[..|raw| - j] + seq(j, x => '=')
    {
      var k := |s| - 1 - j;
      s := s[k := '='];
      assert s == raw[..|raw| - (j + 1)] + seq(j + 1, x => '=');
    }
  }

  lemma RawEmpty()
    ensures Raw([]) == []
  {
  }

  // ---------------------------------------------------------------- decoding

  /** The octet that the next sextet completes, if any. */
  function Completed(v: seq<Sextet>, x: Sextet): seq<Octet> {
    if |v| % 4 == 0 then []
    else if |v| % 4 == 1 then [Octet1(v[|v| - 1], x)]
    else if |v| % 4 == 2 then [Octet2(v[|v| - 1], x)]
    else [Octet3(v[|v| - 1], x)]
  }

  lemma {:induction false} DecodedNext(v: seq<Sextet>, x: Sextet)
    ensures Decoded(v + [x]) == Decoded(v) + Completed(v, x)
    decreases |v|
  {
    hide Decoded, Completed;
    if |v| >= 4 {
      var h, t := v[..4], v[4..];
      assert v == h + t && v + [x] == h + (t + [x]);
      DecodedNext(t, x);
      DecodedGroup(h, t);
      DecodedGroup(h, t + [x]);
      CompletedShift(v, x);
      assert Decoded(h) + Decoded(t) + Completed(t, x) == Decoded(h) + (Decoded(t) + Completed(t, x));
    } else {
      DecodedShort(v, x);
    }
  }

  lemma CompletedShift(v: seq<Sextet>, x: Sextet)
    requires |v| >= 4
    ensures Completed(v, x) == Completed(v[4..], x)
  {
    hide Octet1, Octet2, Octet3;
  }

  lemma DecodedShort(v: seq<Sextet>, x: Sextet)
    requires |v| < 4
    ensures Decoded(v + [x]) == Decoded(v) + Completed(v, x)
  {
    hide Octet1, Octet2, Octet3, Decoded, Completed;
    CompletedShort(v, x);
    if |v| == 0 {
      assert v == [] && v + [x] == [x];
      DecodedUpToTwo(x, x);
    } else if |v| == 1 {
      ShortList1(v, x);
      DecodedUpToTwo(v[0], x);
    } else if |v| == 2 {
      ShortList2(v, x);
      DecodedUpToTwo(v[0], v[1]);
      DecodedThree(v[0], v[1], x);
    } else {
      ShortList3(v, x);
      DecodedThree(v[0], v[1], v[2]);
      DecodedFour(v[0], v[1], v[2], x);
    }
  }

  lemma CompletedShort(v: seq<Sextet>, x: Sextet)
    requires |v| < 4
    ensures |v| == 0 ==> Completed(v, x) == []
    ensures |v| == 1 ==> Completed(v, x) == [Octet1(v[0], x)]
    ensures |v| == 2 ==> Completed(v, x) == [Octet2(v[1], x)]
    ensures |v| == 3 ==> Completed(v, x) == [Octet3(v[2], x)]
  {
    hide Octet1, Octet2, Octet3;
  }

  lemma ShortList1(v: seq<Sextet>, x: Sextet)
    requires |v| == 1
    ensures v == [v[0]] && v + [x] == [v[0], x]
  {
  }

  lemma ShortList2(v: seq<Sextet>, x: Sextet)
    requires |v| == 2
    ensures v == [v[0], v[1]] && v + [x] == [v[0], v[1], x]
  {
  }

  lemma ShortList3(v: seq<Sextet>, x: Sextet)
    requires |v| == 3
    ensures v == [v[0], v[1], v[2]] && v + [x] == [v[0], v[1], v[2], x]
  {
  }

  lemma DecodedUpToTwo(a: Sextet, b: Sextet)
    ensures Decoded([]) == [] && Decoded([a]) == [] && Decoded([a, b]) == [Octet1(a, b)]
  {
    hide Octet1, Octet2, Octet3;
  }

  lemma DecodedThree(a: Sextet, b: Sextet, c: Sextet)
    ensures Decoded([a, b, c]) == [Octet1(a, b), Octet2(b, c)]
  {
    hide Octet1, Octet2, Octet3;
  }

  lemma DecodedFour(a: Sextet, b: Sextet, c: Sextet, d: Sextet)
    ensures Decoded([a, b, c, d]) == [Octet1(a, b), Octet2(b, c), Octet3(c, d)]
  {
    hide Octet1, Octet2, Octet3;
    assert [a, b, c, d][4..] == [];
    assert Decoded([]) == [];
  }

  function BitsAfter(n: nat): nat {
    if n % 4 == 0 then 0 else 8 - n % 4 * 2
  }

  /** The low bits of the buffer are those that no octet has used yet. */
  predicate Buffered(v: seq<Sextet>, buffer: nat) {
    && buffer < UINT32
    && (|v| % 4 == 1 ==> buffer % 64 == v[|v| - 1])
    && (|v| % 4 == 2 ==> buffer % 16 == v[|v| - 1] % 16)
    && (|v| % 4 == 3 ==> buffer % 4 == v[|v| - 1] % 4)
  }

  /** Shifting in six bits loses only bits that were used long ago. */
  function ShiftIn(buffer: nat, x: Sextet): nat {
    buffer * 64 % UINT32 + x
  }

  lemma ShiftedLow(buffer: nat, x: Sextet)
    requires buffer < UINT32
    ensures ShiftIn(buffer, x) < UINT32
    ensures ShiftIn(buffer, x) % 4096 == buffer % 64 * 64 + x
  {
    var t, low := buffer / 0x400_0000, buffer % 0x400_0000;
    assert buffer * 64 == t * UINT32 + low * 64;
    HighBitsGo(t, low * 64);
    var h, l := low / 64, low % 64;
    assert buffer == 64 * (0x10_0000 * t + h) + l;
    Remainder64(buffer, 0x10_0000 * t + h, l);
    assert low * 64 + x == 4096 * h + (l * 64 + x);
    Remainder4096(h, l * 64 + x);
  }

  lemma HighBitsGo(t: nat, r: nat)
    requires r < UINT32
    ensures (t * UINT32 + r) % UINT32 == r
  {
  }

  lemma Remainder4096(q: nat, r: nat)
    requires r < 4096
    ensures (4096 * q + r) % 4096 == r
  {
  }

  lemma TakeOctet(last: Sextet, b: nat, x: Sextet)
    requires b % 4096 == (last as int) * 64 + x
    ensures b / 16 % 256 == Octet1(last, x) && b % 64 == x
  {
    var t, y := b / 4096, (x as int) / 16;
    assert b == 16 * (256 * t + (last as int) * 4 + y) + (x as int) % 16;
    Shift16(b, 256 * t + (last as int) * 4 + y, (x as int) % 16);
    LowOctet(t, (last as int) * 4 + y);
  }

  lemma Shift16(b: nat, q: nat, r: nat)
    requires b == 16 * q + r && r < 16
    ensures b / 16 == q
  {
  }

  lemma Shift4(b: nat, q: nat, r: nat)
    requires b == 4 * q + r && r < 4
    ensures b / 4 == q
  {
  }

  lemma LowOctet(t: nat, y: nat)
    requires y < 256
    ensures (256 * t + y) % 256 == y
  {
  }

  lemma TakeSecond(m: nat, last: Sextet, b: nat, x: Sextet)
    requires m < 64 && m % 16 == last % 16 && b % 4096 == m * 64 + x
    ensures b / 4 % 256 == Octet2(last, x)
  {
    var t, h, l, y := b / 4096, m / 16, m % 16, (x as int) / 4;
    var q := 256 * (4 * t + h) + l * 16 + y;
    assert m == 16 * h + l;
    assert b == 4096 * t + m * 64 + x;
    assert b == 4 * q + (x as int) % 4;
    Shift4(b, q, (x as int) % 4);
    LowOctet(4 * t + h, l * 16 + y);
  }

  lemma TakeThird(m: nat, last: Sextet, b: nat, x: Sextet)
    requires m < 64 && m % 4 == last % 4 && b % 4096 == m * 64 + x
    ensures b % 256 == Octet3(last, x)
  {
    var t, h, l := b / 4096, m / 4, m % 4;
    assert m == 4 * h + l;
    assert b == 4096 * t + m * 64 + x;
    assert b == 256 * (16 * t + h) + (l * 64 + x);
    LowOctet(16 * t + h, l * 64 + x);
  }

  lemma ShiftStep(v: seq<Sextet>, buffer: nat, x: Sextet)
    requires Buffered(v, buffer)
    ensures Buffered(v + [x], ShiftIn(buffer, x))
    ensures |v| % 4 == 1 ==> [ShiftIn(buffer, x) / 16 % 256] == Completed(v, x)
    ensures |v| % 4 == 2 ==> [ShiftIn(buffer, x) / 4 % 256] == Completed(v, x)
    ensures |v| % 4 == 3 ==> [ShiftIn(buffer, x) % 256] == Completed(v, x)
  {
    hide ShiftIn, Octet1, Octet2, Octet3;
    ShiftedLow(buffer, x);
    var b := ShiftIn(buffer, x);
    var m := buffer % 64;
    assert (v + [x])[|v|] == x;
    ModMod(buffer, m);
    if |v| % 4 == 0 {
      LowBits(b, m, x);
    } else if |v| % 4 == 1 {
      TakeOctet(v[|v| - 1], b, x);
      LowBits(b, m, x);
    } else if |v| % 4 == 2 {
      TakeSecond(m, v[|v| - 1], b, x);
      LowBits(b, m, x);
    } else {
      TakeThird(m, v[|v| - 1], b, x);
    }
  }

  lemma ModMod(b: nat, m: nat)
    requires m == b % 64
    ensures m % 16 == b % 16 && m % 4 == b % 4
  {
    var t := b / 64;
    assert b == 16 * (4 * t + m / 16) + m % 16;
    assert b == 4 * (16 * t + m / 4) + m % 4;
    Remainders(b, 4 * t + m / 16, m % 16, 16 * t + m / 4, m % 4);
  }

  lemma Remainders(b: nat, q: nat, r: nat, q': nat, r': nat)
    requires b == 16 * q + r && r < 16 && b == 4 * q' + r' && r' < 4
    ensures b % 16 == r && b % 4 == r'
  {
  }

  lemma LowBits(b: nat, m: nat, x: Sextet)
    requires b % 4096 == m * 64 + x
    ensures b % 64 == x && b % 16 == x % 16 && b % 4 == x % 4
  {
    var t := b / 4096;
    assert b == 64 * (64 * t + m) + x;
    Remainder64(b, 64 * t + m, x);
    ModMod(b, x);
  }

  lemma Remainder64(b: nat, q: nat, r: nat)
    requires b == 64 * q + r && r < 64
    ensures b % 64 == r && b / 64 == q
  {
  }

  /** One round of the decoding loop: shifts a sextet in and takes an octet out when there is one. */
  method TakeSextet(buffer: nat, bits: nat, x: Sextet, ghost v: seq<Sextet>)
    returns (buffer': nat, bits': nat, octets: seq<Octet>)
    requires Buffered(v, buffer) && bits == BitsAfter(|v|)
    ensures Buffered(v + [x], buffer') && bits' == BitsAfter(|v| + 1) && octets == Completed(v, x)
  {
    hide Buffered, ShiftIn, Completed;
    ShiftStep(v, buffer, x);
    if |v| % 4 == 0 {
      NoOctet(v, x);
    }
    buffer', bits', octets := ShiftIn(buffer, x), bits + 6, [];
    if bits' >= 8 {
      bits' := bits' - 8;
      octets := [ShiftRight(buffer', bits') % 256];
    }
  }

  function ShiftRight(b: nat, bits: nat): nat {
    b / (if bits == 0 then 1 else if bits == 2 then 4 else if bits == 4 then 16 else 64)
  }

  function Entry(table: seq<int>, c: Char): int
    requires |table| == 256
  {
    table[c as int]
  }

  method BuildTable() returns (table: seq<int>)
    ensures |table| == 256
    ensures forall c: Char :: Entry(table, c) == if InAlphabet(c) then ValueIn(c) else -1
  {
    table := seq(256, i => -1);
    for i := 0 to 64
      invariant |table| == 256
      invariant forall c: Char :: Entry(table, c) == if InAlphabet(c) && ValueIn(c) < i then ValueIn(c) else -1
    {
      CharValue(i);
      forall c: Char | InAlphabet(c) && ValueIn(c) == i
        ensures c == CharOf(i)
      {
        ValueChar(c);
      }
      table := table[CharOf(i) as int := i];
    }
  }

  /** How many of the last two characters are padding. */
  method CountPadding(s: seq<Char>) returns (padding: nat)
    requires |s| % 4 == 0
    ensures padding <= 2 && padding <= |s| && forall k :: Padded(s, k) ==> k == padding
    ensures padding == 2 ==> s[|s| - 1] == '=' && s[|s| - 2] == '='
  {
    padding := 0;
    if s != [] {
      if s[|s| - 1] == '=' {
        padding := padding + 1;
      }
      if |s| >= 2 && s[|s| - 2] == '=' {
        padding := padding + 1;
      }
    }
    forall k | Padded(s, k)
      ensures k == padding
    {
      PaddingIs(s, k);
    }
  }

  lemma PaddingIs(s: seq<Char>, k: nat)
    requires Padded(s, k)
    ensures k >= 1 <==> |s| >= 1 && s[|s| - 1] == '='
    ensures k == 2 <==> |s| >= 2 && s[|s| - 2] == '='
  {
    if |s| >= 1 && k < 1 {
      NotPadding(s[|s| - 1]);
    }
    if |s| >= 2 && k < 2 {
      NotPadding(s[|s| - 2]);
    }
  }

  lemma {:induction false} DecodedSize(v: seq<Sextet>)
    ensures |Decoded(v)| == |v| / 4 * 3 + if |v| % 4 < 2 then 0 else |v| % 4 - 1
    decreases |v|
  {
    if |v| >= 4 {
      DecodedSize(v[4..]);
    }
  }

  // ---------------------------------------------------------------- why a text is refused

  /** The first character outside the alphabet. */
  ghost predicate FirstOutside(s: seq<Char>, f: nat) {
    f < |s| && !InAlphabet(s[f]) && forall j :: 0 <= j < f ==> InAlphabet(s[j])
  }

  /** It is not a padding character. */
  ghost predicate Foreign(s: seq<Char>) {
    exists f: nat :: FirstOutside(s, f) && s[f] != '='
  }

  /** It is a padding character, and what begins there is not the padding of the text. */
  ghost predicate Misplaced(s: seq<Char>) {
    exists f: nat :: FirstOutside(s, f) && s[f] == '=' && !Padded(s, |s| - f)
  }

  lemma FirstIsUnique(s: seq<Char>, f: nat, g: nat)
    requires FirstOutside(s, f) && FirstOutside(s, g)
    ensures f == g
  {
    hide InAlphabet;
  }

  lemma OddLength(s: seq<Char>)
    requires |s| % 4 != 0
    ensures !Accepted(s)
  {
  }

  lemma NotHere(s: seq<Char>, padding: nat, i: nat)
    requires i < |s| - padding && s[i] == '=' && (forall k :: Padded(s, k) ==> k == padding)
    requires forall j :: 0 <= j < i ==> InAlphabet(s[j])
    ensures !Accepted(s) && Misplaced(s) && !Foreign(s)
  {
    assert !InAlphabet('=');
    hide InAlphabet;
    assert FirstOutside(s, i);
    forall k
      ensures !Padded(s, k)
    {
    }
    forall f: nat | FirstOutside(s, f)
      ensures f == i
    {
      FirstIsUnique(s, f, i);
    }
  }

  lemma NotInAlphabet(s: seq<Char>, i: nat)
    requires i < |s| && s[i] != '=' && !InAlphabet(s[i]) && forall j :: 0 <= j < i ==> InAlphabet(s[j])
    ensures !Accepted(s) && Foreign(s) && !Misplaced(s)
  {
    hide InAlphabet;
    assert FirstOutside(s, i);
    forall f: nat | FirstOutside(s, f)
      ensures f == i
    {
      FirstIsUnique(s, f, i);
    }
  }

  lemma NeitherWrong(s: seq<Char>, body: nat)
    requires body <= |s| <= body + 2
    requires forall j :: 0 <= j < body ==> InAlphabet(s[j])
    requires forall j :: body <= j < |s| ==> s[j] == '='
    ensures !Foreign(s) && !Misplaced(s)
  {
    assert !InAlphabet('=');
    hide InAlphabet;
    assert Padded(s, |s| - body);
    assert body < |s| ==> s[body] == '=' && FirstOutside(s, body);
    forall f: nat | FirstOutside(s, f)
      ensures f == body
    {
      if body < |s| {
        FirstIsUnique(s, f, body);
      }
    }
  }

  lemma Finished(s: seq<Char>, body: nat, v: seq<Sextet>)
    requires |s| % 4 == 0 && body <= |s| <= body + 2
    requires forall j :: 0 <= j < body ==> InAlphabet(s[j])
    requires forall j :: body <= j < |s| ==> s[j] == '='
    requires v == Values(s[..body])
    ensures Accepted(s)
    ensures forall k :: Padded(s, k) ==> Decoded(v) == Meaning(s, k) && |Decoded(v)| == |s| / 4 * 3 - k
  {
    hide InAlphabet, Decoded;
    var p := |s| - body;
    assert Padded(s, p);
    DecodedSize(v);
    forall k | Padded(s, k)
      ensures k == p
    {
      PaddingUnique(s, k, p);
    }
  }

  lemma AppendValue(s: seq<Char>, i: nat, v: seq<Sextet>)
    requires i < |s| && (forall j :: 0 <= j <= i ==> InAlphabet(s[j])) && v == Values(s[..i])
    ensures Values(s[..i + 1]) == v + [ValueIn(s[i])]
  {
    hide InAlphabet, ValueIn;
    assert s[..i + 1] == s[..i] + [s[i]];
  }

  lemma NoOctet(v: seq<Sextet>, x: Sextet)
    requires |v| % 4 == 0
    ensures Completed(v, x) == []
  {
  }

  lemma Nothing()
    ensures Decoded([]) == [] && Buffered([], 0) && BitsAfter(0) == 0 && Values([]) == []
  {
  }

  /**
    Accepts exactly the padded texts, and says what is wrong with the others: the length, a
    foreign character or misplaced padding.  The other two errors of the code never occur.
   */
  method Base64Decode(s: seq<Char>) returns (data: seq<Octet>, error: Option<Error>)
    ensures error.None? <==> Accepted(s)
    ensures error == Some(InvalidLength) <==> |s| % 4 != 0
    ensures error == Some(InvalidCharacter) <==> |s| % 4 == 0 && Foreign(s)
    ensures error == Some(InvalidPaddingPosition) <==> |s| % 4 == 0 && Misplaced(s)
    ensures error != Some(InvalidPadding) && error != Some(InvalidAfterPadding)
    ensures error.Some? ==> data == []
    ensures error.None? ==> forall k :: Padded(s, k) ==> data == Meaning(s, k) && |data| == |s| / 4 * 3 - k
  {
    hide Entry, Padded, Accepted, Meaning, Values, InAlphabet, ValueIn, Decoded, Completed, Buffered, BitsAfter;
    hide Foreign, Misplaced;
    if |s| % 4 != 0 {
      assert !Accepted(s) by { OddLength(s); }
      return [], Some(InvalidLength);
    }
    var padding := CountPadding(s);
    if padding > 2 {
      assert false;
    }
    var table := BuildTable();
    var buffer: nat, bits: nat, i: nat := 0, 0, 0;
    data := [];
    ghost var v: seq<Sextet> := [];
    Nothing();
    assert s[..0] == [];
    while i < |s|
      invariant i <= |s| && (forall j :: 0 <= j < i ==> InAlphabet(s[j]))
      invariant v == Values(s[..i]) && data == Decoded(v) && Buffered(v, buffer) && bits == BitsAfter(i)
    {
      var c := s[i];
      if c == '=' {
        if i < |s| - padding {
          NotHere(s, padding, i);
          return [], Some(InvalidPaddingPosition);
        }
        break;
      }
      if Entry(table, c) == -1 {
        NotInAlphabet(s, i);
        return [], Some(InvalidCharacter);
      }
      var x: Sextet := Entry(table, c);
      DecodedNext(v, x);
      AppendValue(s, i, v);
      var octets;
      buffer, bits, octets := TakeSextet(buffer, bits, x, v);
      data := data + octets;
      v := v + [x];
      i := i + 1;
    }
    ghost var body := i;
    assert forall j :: body <= j < |s| ==> s[j] == '=';
    while i < |s|
      invariant body <= i <= |s|
    {
      if s[i] != '=' {
        assert false;
      }
      i := i + 1;
    }
    error := None;
    NeitherWrong(s, body);
    Finished(s, body, v);
  }

  /** Decoding what was encoded returns the data and no error. */
  method EncodeThenDecode(d: seq<Octet>) returns (data: seq<Octet>, error: Option<Error>)
    ensures error.None? && data == d
  {
    hide Encoded, Padded, Meaning, Padding;
    var s := Base64Encode(d);
    RoundTrip(d);
    data, error := Base64Decode(s);
  }
}
