/** The Base64 codec: the encoding of section 4 of RFC 4648, by shifts over a 32-bit buffer. */
module Base64 {
  import opened Wrappers

  type Octet = x: nat | x < 256
  type Sextet = x: nat | x < 64
  /** A C++ `char`. */
  type Char = c: char | c < 256 as char

  datatype Error = InvalidLength | InvalidPadding | InvalidPaddingPosition | InvalidCharacter | InvalidAfterPadding

  // ---------------------------------------------------------------- the alphabet

  function CharOf(i: Sextet): Char {
    if i < 26 then ('A' as int + i) as char
    else if i < 52 then ('a' as int + (i - 26)) as char
    else if i < 62 then ('0' as int + (i - 52)) as char
    else if i == 62 then '+' else '/'
  }

  function ValueOf(c: Char): Option<Sextet> {
    if 'A' <= c <= 'Z' then Some(c as int - 'A' as int)
    else if 'a' <= c <= 'z' then Some(c as int - 'a' as int + 26)
    else if '0' <= c <= '9' then Some(c as int - '0' as int + 52)
    else if c == '+' then Some(62) else if c == '/' then Some(63) else None
  }

  predicate InAlphabet(c: Char) {
    ValueOf(c).Some?
  }

  function ValueIn(c: Char): Sextet
    requires InAlphabet(c)
  {
    ValueOf(c).value
  }

  lemma CharValue(i: Sextet)
    ensures ValueOf(CharOf(i)) == Some(i) && CharOf(i) != '='
  {
  }

  lemma ValueChar(c: Char)
    requires InAlphabet(c)
    ensures CharOf(ValueOf(c).value) == c && c != '='
  {
  }

  /** The alphabet of table 1 of RFC 4648, in its order. */
  const UPPER_CASE: string := "ABCDEFGHIJKLMNOPQRSTUVWXYZ"
  const LOWER_CASE: string := "abcdefghijklmnopqrstuvwxyz"
  const DIGITS: string := "0123456789"
  const ALPHABET: string := UPPER_CASE + LOWER_CASE + DIGITS + "+/"

  lemma UpperCaseIs(i: Sextet)
    requires i < 26
    ensures |UPPER_CASE| == 26 && UPPER_CASE[i] == CharOf(i)
  {
  }

  lemma LowerCaseIs(i: Sextet)
    requires 26 <= i < 52
    ensures |LOWER_CASE| == 26 && LOWER_CASE[i - 26] == CharOf(i)
  {
  }

  lemma DigitIs(i: Sextet)
    requires 52 <= i < 62
    ensures |DIGITS| == 10 && DIGITS[i - 52] == CharOf(i)
  {
  }

  /** A sextet is written as the character at its place in the alphabet, and that character is read back as it. */
  lemma AlphabetIs(i: Sextet, c: Char)
    ensures |ALPHABET| == 64 && (c == ALPHABET[i] <==> c == CharOf(i)) && (c == ALPHABET[i] <==> ValueOf(c) == Some(i))
  {
    assert |UPPER_CASE| == 26 && |LOWER_CASE| == 26 && |DIGITS| == 10;
    CharValue(i);
    if InAlphabet(c) {
      ValueChar(c);
    }
    if i < 26 {
      UpperCaseIs(i);
    } else if i < 52 {
      LowerCaseIs(i);
    } else if i < 62 {
      DigitIs(i);
    }
    hide UPPER_CASE, LOWER_CASE, DIGITS, CharOf, ValueOf;
  }

  // ---------------------------------------------------------------- RFC 4648 on whole groups

  /** Three octets as four sextets. */
  function Quad(a: Octet, b: Octet, c: Octet): seq<Sextet> {
    [a / 4, a % 4 * 16 + b / 16, b % 16 * 4 + c / 64, c % 64]
  }

  /** The sextets are the same 24 bits, highest first. */
  lemma QuadIsBits(a: Octet, b: Octet, c: Octet)
    ensures var q := Quad(a, b, c);
            q[0] as int * 0x4_0000 + q[1] as int * 0x1000 + q[2] as int * 0x40 + q[3] as int
            == a as int * 0x1_0000 + b as int * 0x100 + c as int
  {
  }

  function Text(v: seq<Sextet>): (s: seq<Char>)
    ensures |s| == |v|
  {
    seq(|v|, i requires 0 <= i < |v| => CharOf(v[i]))
  }

  function Encoded(d: seq<Octet>): seq<Char> {
    if d == [] then []
    else if |d| == 1 then Text(Quad(d[0], 0, 0)[..2]) + ['=', '=']
    else if |d| == 2 then Text(Quad(d[0], d[1], 0)[..3]) + ['=']
    else Text(Quad(d[0], d[1], d[2])) + Encoded(d[3..])
  }

  /** Two of the test vectors of section 10 of RFC 4648: "f" and "foo". */
  lemma OneOctetVector()
    ensures Encoded([102]) == ['Z', 'g', '=', '=']
  {
    var v := Quad(102, 0, 0)[..2];
    assert v == [25, 32] && |Text(v)| == 2;
    assert Text(v)[0] == CharOf(25) == 'Z' && Text(v)[1] == CharOf(32) == 'g';
    assert Text(v) == ['Z', 'g'];
    hide Text, CharOf, Quad;
  }

  lemma ThreeOctetVector()
    ensures Encoded([102, 111, 111]) == ['Z', 'm', '9', 'v']
  {
    var d: seq<Octet>, v := [102, 111, 111], Quad(102, 111, 111);
    assert v == [25, 38, 61, 47] && |Text(v)| == 4;
    assert Text(v)[0] == CharOf(25) == 'Z' && Text(v)[1] == CharOf(38) == 'm';
    assert Text(v)[2] == CharOf(61) == '9' && Text(v)[3] == CharOf(47) == 'v';
    assert Text(v) == ['Z', 'm', '9', 'v'];
    assert d[3..] == [] && Encoded([]) == [];
    assert Encoded(d) == Text(v) + Encoded(d[3..]);
    hide Text, CharOf, Quad;
  }

  /** The three octets of four sextets. */
  function Octet1(x: Sextet, y: Sextet): Octet {
    (x as int) * 4 + (y as int) / 16
  }

  function Octet2(y: Sextet, z: Sextet): Octet {
    (y as int) % 16 * 16 + (z as int) / 4
  }

  function Octet3(z: Sextet, w: Sextet): Octet {
    (z as int) % 4 * 64 + (w as int)
  }

  /** Four sextets, or what is left of them, as octets. */
  function Decoded(v: seq<Sextet>): seq<Octet> {
    if |v| < 2 then []
    else if |v| == 2 then [Octet1(v[0], v[1])]
    else if |v| == 3 then [Octet1(v[0], v[1]), Octet2(v[1], v[2])]
    else [Octet1(v[0], v[1]), Octet2(v[1], v[2]), Octet3(v[2], v[3])] + Decoded(v[4..])
  }

  /** Alphabet characters followed by `k` padding characters. */
  ghost predicate Padded(s: seq<Char>, k: nat) {
    && k <= 2 && k <= |s|
    && (forall i :: 0 <= i < |s| - k ==> InAlphabet(s[i]))
    && forall i :: |s| - k <= i < |s| ==> s[i] == '='
  }

  ghost predicate Accepted(s: seq<Char>) {
    |s| % 4 == 0 && exists k :: Padded(s, k)
  }

  function Values(s: seq<Char>): (v: seq<Sextet>)
    requires forall i :: 0 <= i < |s| ==> InAlphabet(s[i])
    ensures |v| == |s|
  {
    seq(|s|, i requires 0 <= i < |s| && InAlphabet(s[i]) => ValueIn(s[i]))
  }

  ghost function Meaning(s: seq<Char>, k: nat): seq<Octet>
    requires Padded(s, k)
  {
    Decoded(Values(s[..|s| - k]))
  }

  lemma NotPadding(c: Char)
    requires InAlphabet(c)
    ensures c != '='
  {
  }

  lemma PaddingUnique(s: seq<Char>, j: nat, k: nat)
    requires Padded(s, j) && Padded(s, k)
    ensures j == k
  {
    hide InAlphabet;
    if j < k {
      NotPadding(s[|s| - k]);
    } else if k < j {
      NotPadding(s[|s| - j]);
    }
  }

  // ---------------------------------------------------------------- round trips

  lemma QuadBack(a: Octet, b: Octet, c: Octet)
    ensures var q := Quad(a, b, c);
            Octet1(q[0], q[1]) == a && Octet2(q[1], q[2]) == b && Octet3(q[2], q[3]) == c
  {
  }

  /** How many padding characters an encoding ends with. */
  function Padding(n: nat): nat {
    if n % 3 == 0 then 0 else 3 - n % 3
  }

  lemma TextValues(v: seq<Sextet>)
    ensures forall i :: 0 <= i < |v| ==> InAlphabet(Text(v)[i])
    ensures Values(Text(v)) == v
  {
    forall i | 0 <= i < |v|
      ensures ValueOf(Text(v)[i]) == Some(v[i])
    {
      CharValue(v[i]);
    }
  }

  /** Decoding an encoding gives the data back, for every octet sequence. */
  lemma {:induction false} RoundTrip(d: seq<Octet>)
    ensures |Encoded(d)| % 4 == 0 && Padded(Encoded(d), Padding(|d|))
    ensures Meaning(Encoded(d), Padding(|d|)) == d
    decreases |d|
  {
    hide *;
    if d == [] {
      RoundTripEmpty();
    } else if |d| < 3 {
      RoundTripLast(d);
    } else {
      RoundTrip(d[3..]);
      PaddingSame(|d|);
      RoundTripFirst(d[0], d[1], d[2], Encoded(d[3..]), Padding(|d|));
      EncodedGroup(d[0], d[1], d[2], d[3..]);
      assert d == [d[0], d[1], d[2]] + d[3..];
    }
  }

  lemma RoundTripEmpty()
    ensures Encoded([]) == [] && Padding(0) == 0 && Padded([], 0) && Meaning([], 0) == []
  {
  }

  lemma PaddingSame(n: nat)
    requires n >= 3
    ensures Padding(n - 3) == Padding(n)
  {
  }

  lemma RoundTripLast(d: seq<Octet>)
    requires 0 < |d| < 3
    ensures |Encoded(d)| == 4 && Padded(Encoded(d), Padding(|d|)) && Meaning(Encoded(d), Padding(|d|)) == d
  {
    hide Octet1, Octet2, Octet3, Padded, Meaning;
    if |d| == 1 {
      QuadBack(d[0], 0, 0);
      LastGroup(Quad(d[0], 0, 0)[..2], 2);
    } else {
      QuadBack(d[0], d[1], 0);
      LastGroup(Quad(d[0], d[1], 0)[..3], 1);
    }
  }

  lemma RoundTripFirst(a: Octet, b: Octet, c: Octet, rest: seq<Char>, k: nat)
    requires Padded(rest, k)
    ensures var s := Text(Quad(a, b, c)) + rest; Padded(s, k) && Meaning(s, k) == [a, b, c] + Meaning(rest, k)
    ensures |Quad(a, b, c)| == 4
  {
    hide Octet1, Octet2, Octet3, Padded, Meaning;
    QuadBack(a, b, c);
    var v := Quad(a, b, c);
    FirstGroup(v, rest, k);
    assert v[4..] == [] && Decoded([]) == [];
  }

  lemma LastGroup(v: seq<Sextet>, k: nat)
    requires |v| + k == 4 && 1 <= k <= 2
    ensures var s := Text(v) + seq(k, i => '='); Padded(s, k) && Meaning(s, k) == Decoded(v)
    ensures seq(2, i => '=') == ['=', '='] && seq(1, i => '=') == ['=']
  {
    TextValues(v);
    var s := Text(v) + seq(k, i => '=');
    assert s[..|s| - k] == Text(v);
  }

  lemma FirstGroup(v: seq<Sextet>, rest: seq<Char>, k: nat)
    requires |v| == 4 && Padded(rest, k)
    ensures var s := Text(v) + rest;
            && Padded(s, k) && |s| == 4 + |rest|
            && Meaning(s, k) == Decoded(v) + Meaning(rest, k)
  {
    hide Text, InAlphabet, Decoded;
    TextValues(v);
    var s := Text(v) + rest;
    PrependPadded(Text(v), rest, k);
    var body := Values(s[..|s| - k]);
    assert s[..|s| - k] == Text(v) + rest[..|rest| - k];
    ValuesJoin(Text(v), rest[..|rest| - k]);
    DecodedGroup(v, Values(rest[..|rest| - k]));
  }

  lemma PrependPadded(a: seq<Char>, rest: seq<Char>, k: nat)
    requires Padded(rest, k) && forall i :: 0 <= i < |a| ==> InAlphabet(a[i])
    ensures Padded(a + rest, k)
  {
    hide InAlphabet;
    var s := a + rest;
    forall i | 0 <= i < |s| - k
      ensures InAlphabet(s[i])
    {
      if i >= |a| {
        assert s[i] == rest[i - |a|];
      }
    }
    forall i | |s| - k <= i < |s|
      ensures s[i] == '='
    {
      assert s[i] == rest[i - |a|];
    }
  }

  lemma ValuesJoin(a: seq<Char>, b: seq<Char>)
    requires forall i :: 0 <= i < |a| ==> InAlphabet(a[i])
    requires forall i :: 0 <= i < |b| ==> InAlphabet(b[i])
    ensures forall i :: 0 <= i < |a + b| ==> InAlphabet((a + b)[i])
    ensures Values(a + b) == Values(a) + Values(b)
  {
    hide InAlphabet, ValueIn;
  }

  lemma DecodedGroup(v: seq<Sextet>, w: seq<Sextet>)
    requires |v| == 4
    ensures Decoded(v + w) == Decoded(v) + Decoded(w)
  {
    hide Octet1, Octet2, Octet3;
    assert v[4..] == [] && (v + w)[4..] == w;
  }

  /** The bits that do not reach an octet are zero. */
  ghost predicate Canonical(s: seq<Char>, k: nat)
    requires Padded(s, k)
  {
    |s| > k ==>
      var last := ValueIn(s[|s| - k - 1]);
      (k == 1 ==> last % 4 == 0) && (k == 2 ==> last % 16 == 0)
  }

  lemma QuadOf(v: seq<Sextet>)
    requires |v| == 4
    ensures Quad(Octet1(v[0], v[1]), Octet2(v[1], v[2]), Octet3(v[2], v[3])) == v
  {
    QuadFront(v[0], v[1], v[2]);
    QuadBackEnd(v[1], v[2], v[3]);
  }

  lemma QuadFront(x: Sextet, y: Sextet, z: Sextet)
    ensures Octet1(x, y) / 4 == x && Octet1(x, y) % 4 * 16 + Octet2(y, z) / 16 == y
  {
  }

  lemma QuadBackEnd(y: Sextet, z: Sextet, w: Sextet)
    ensures Octet2(y, z) % 16 * 4 + Octet3(z, w) / 64 == z && Octet3(z, w) % 64 == w
  {
    LowDigits((y as int) % 16, (z as int) / 4, (z as int) % 4, w);
  }

  lemma LowDigits(h: nat, l: nat, h': nat, l': nat)
    requires l < 16 && l' < 64
    ensures (h * 16 + l) % 16 == l && (h' * 64 + l') / 64 == h' && (h' * 64 + l') % 64 == l'
  {
  }

  lemma ValuesText(s: seq<Char>)
    requires forall i :: 0 <= i < |s| ==> InAlphabet(s[i])
    ensures Text(Values(s)) == s
  {
    forall i | 0 <= i < |s|
      ensures CharOf(ValueOf(s[i]).value) == s[i]
    {
      ValueChar(s[i]);
    }
  }

  /** Encoding an accepted text's meaning gives the text back exactly when its spare bits are zero. */
  lemma {:induction false} BackAgainIff(s: seq<Char>, k: nat)
    requires |s| % 4 == 0 && Padded(s, k)
    ensures Encoded(Meaning(s, k)) == s <==> Canonical(s, k)
    decreases |s|
  {
    if s == [] {
    } else if |s| == 4 && k > 0 {
      BackAgainLast(s, k);
    } else {
      TailPadded(s, k);
      BackAgainIff(s[4..], k);
      BackAgainFirst(s, k);
      assert s == s[..4] + s[4..];
      SameTail(s[..4], Encoded(Meaning(s[4..], k)), s[4..]);
    }
  }

  /** What is left after a whole group. */
  lemma TailPadded(s: seq<Char>, k: nat)
    requires |s| % 4 == 0 && |s| >= 4 && Padded(s, k) && !(|s| == 4 && k > 0)
    ensures Padded(s[4..], k) && (Canonical(s[4..], k) <==> Canonical(s, k))
    ensures forall i :: 0 <= i < 4 ==> InAlphabet(s[i])
  {
    hide InAlphabet, ValueOf;
    var t := s[4..];
    assert forall i :: 0 <= i < |t| ==> t[i] == s[i + 4];
  }

  lemma BackAgainFirst(s: seq<Char>, k: nat)
    requires |s| % 4 == 0 && |s| >= 4 && Padded(s, k) && !(|s| == 4 && k > 0) && Padded(s[4..], k)
    requires forall i :: 0 <= i < 4 ==> InAlphabet(s[i])
    ensures Encoded(Meaning(s, k)) == s[..4] + Encoded(Meaning(s[4..], k))
  {
    hide Octet1, Octet2, Octet3, Padded, Meaning, InAlphabet, Quad;
    var h := s[..4];
    assert forall i :: 0 <= i < 4 ==> InAlphabet(h[i]);
    var v := Values(h);
    assert s == h + s[4..];
    ValuesText(h);
    FirstGroup(v, s[4..], k);
    QuadOf(v);
    assert v[4..] == [] && Decoded([]) == [];
    EncodedGroup(Octet1(v[0], v[1]), Octet2(v[1], v[2]), Octet3(v[2], v[3]), Meaning(s[4..], k));
  }

  lemma EncodedGroup(a: Octet, b: Octet, c: Octet, rest: seq<Octet>)
    ensures Encoded([a, b, c] + rest) == Text(Quad(a, b, c)) + Encoded(rest)
  {
    assert ([a, b, c] + rest)[3..] == rest;
  }

  lemma SameTail(a: seq<Char>, b: seq<Char>, c: seq<Char>)
    ensures a + b == a + c <==> b == c
  {
    assert (a + b)[|a|..] == b && (a + c)[|a|..] == c;
  }

  lemma BackAgainLast(s: seq<Char>, k: nat)
    requires |s| == 4 && 1 <= k <= 2 && Padded(s, k)
    ensures Encoded(Meaning(s, k)) == s <==> Canonical(s, k)
  {
    var v := Values(s[..4 - k]);
    ValuesText(s[..4 - k]);
    var d := Decoded(v);
    assert d == Meaning(s, k);
    if k == 2 {
      assert s == Text(v) + ['=', '='];
      var q := Quad(d[0], 0, 0)[..2];
      assert q[0] == v[0] && (q[1] == v[1] <==> v[1] % 16 == 0);
      SameText(q, v);
      SameFront(Text(q), Text(v), ['=', '=']);
    } else {
      assert s == Text(v) + ['='];
      var q := Quad(d[0], d[1], 0)[..3];
      assert q[0] == v[0] && q[1] == v[1] && (q[2] == v[2] <==> v[2] % 4 == 0);
      SameText(q, v);
      SameFront(Text(q), Text(v), ['=']);
    }
  }

  lemma SameFront(a: seq<Char>, b: seq<Char>, c: seq<Char>)
    requires |a| == |b|
    ensures a + c == b + c <==> a == b
  {
    assert (a + c)[..|a|] == a && (b + c)[..|b|] == b;
  }

  lemma SameText(v: seq<Sextet>, w: seq<Sextet>)
    requires |v| == |w|
    ensures Text(v) == Text(w) <==> v == w
  {
    TextValues(v);
    TextValues(w);
  }
}
