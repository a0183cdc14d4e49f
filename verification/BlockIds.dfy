/** Names of the blocks of an upload: a six-character decimal, in the base64 form of section 4 of RFC 4648. */
module BlockIds {

  type Byte = b: nat | b < 256

  // ---------------------------------------------------------------------------
  // printf "%6u"
  // ---------------------------------------------------------------------------

  function Decimal(n: nat): (s: string)
    ensures |s| > 0
    ensures forall i :: 0 <= i < |s| ==> '0' <= s[i] <= '9'
  {
    if n < 10 then [n as char + '0'] else Decimal(n / 10) + [(n % 10) as char + '0']
  }

  function Spaces(n: nat): (s: string)
    ensures |s| == n && forall i :: 0 <= i < |s| ==> s[i] == ' '
  {
    seq(n, _ => ' ')
  }

  /** The number, padded on the left with spaces to at least six characters. */
  function Printed(n: nat): (s: string)
    ensures |s| >= 6
    ensures forall i :: 0 <= i < |s| ==> s[i] == ' ' || '0' <= s[i] <= '9'
  {
    var d := Decimal(n);
    Spaces(if |d| < 6 then 6 - |d| else 0) + d
  }

  function DigitOf(c: char): (d: nat)
  {
    if '0' <= c <= '9' then (c - '0') as nat else 0
  }

  /** Reads a printed number back; a space counts as nothing. */
  function Read(s: string): (n: nat)
  {
    if s == [] then 0 else Read(s[..|s| - 1]) * 10 + DigitOf(s[|s| - 1])
  }

  lemma {:induction false} DecimalReads(n: nat)
    ensures Read(Decimal(n)) == n
  {
    if n < 10 {
      assert Decimal(n)[..0] == [];
    } else {
      DecimalReads(n / 10);
      assert Decimal(n)[..|Decimal(n)| - 1] == Decimal(n / 10);
    }
  }

  lemma {:induction false} SpacesRead(k: nat, s: string)
    ensures Read(Spaces(k) + s) == Read(s)
    decreases k + |s|
  {
    var p := Spaces(k) + s;
    if s != [] {
      SpacesRead(k, s[..|s| - 1]);
      assert p[..|p| - 1] == Spaces(k) + s[..|s| - 1];
    } else if k > 0 {
      SpacesRead(k - 1, []);
      assert p[..|p| - 1] == Spaces(k - 1) + [];
    }
  }

  lemma PrintedReads(n: nat)
    ensures Read(Printed(n)) == n
  {
    DecimalReads(n);
    SpacesRead(if |Decimal(n)| < 6 then 6 - |Decimal(n)| else 0, Decimal(n));
  }

  function Power10(k: nat): (p: nat)
    ensures p > 0
  {
    if k == 0 then 1 else 10 * Power10(k - 1)
  }

  lemma {:induction false} DecimalLength(n: nat, k: nat)
    requires k > 0
    ensures |Decimal(n)| <= k <==> n < Power10(k)
  {
    if n < 10 {
      assert Power10(k) == 10 * Power10(k - 1);
    } else if k > 1 {
      DecimalLength(n / 10, k - 1);
      assert Power10(k) == 10 * Power10(k - 1);
    }
  }

  /** Exactly the numbers below a million print as six characters. */
  lemma PrintedLength(n: nat)
    ensures |Printed(n)| == 6 <==> n < 1000000
  {
    DecimalLength(n, 6);
    assert Power10(1) == 10 && Power10(2) == 100 && Power10(3) == 1000;
    assert Power10(4) == 10000 && Power10(5) == 100000 && Power10(6) == 1000000;
  }

  // ---------------------------------------------------------------------------
  // Base64
  // ---------------------------------------------------------------------------

  function Symbol(v: nat): (c: char)
    requires v < 64
  {
    if v < 26 then v as char + 'A'
    else if v < 52 then (v - 26) as char + 'a'
    else if v < 62 then (v - 52) as char + '0'
    else if v == 62 then '+' else '/'
  }

  function Sextet(c: char): (v: nat)
  {
    if 'A' <= c <= 'Z' then (c - 'A') as nat
    else if 'a' <= c <= 'z' then (c - 'a') as nat + 26
    else if '0' <= c <= '9' then (c - '0') as nat + 52
    else if c == '+' then 62 else 63
  }

  lemma SymbolReads(v: nat)
    requires v < 64
    ensures Sextet(Symbol(v)) == v
  {
  }

  function EncodeGroup(a: Byte, b: Byte, c: Byte): (s: string)
    ensures |s| == 4
  {
    [Symbol(a / 4), Symbol(a % 4 * 16 + b / 16), Symbol(b % 16 * 4 + c / 64), Symbol(c % 64)]
  }

  function DecodeGroup(s: string): (r: (nat, nat, nat))
    requires |s| == 4
  {
    var (w, x, y, z) := (Sextet(s[0]), Sextet(s[1]), Sextet(s[2]), Sextet(s[3]));
    (w * 4 + x / 16, x % 16 * 16 + y / 4, y % 4 * 64 + z)
  }

  lemma GroupDecodes(a: Byte, b: Byte, c: Byte)
    ensures DecodeGroup(EncodeGroup(a, b, c)) == (a, b, c)
  {
    SymbolReads(a / 4);
    SymbolReads(a % 4 * 16 + b / 16);
    SymbolReads(b % 16 * 4 + c / 64);
    SymbolReads(c % 64);
  }

  /** Whole groups only: block ids have six bytes, so no padding arises. */
  function Encode(bytes: seq<Byte>): (s: string)
    requires |bytes| % 3 == 0
    ensures |s| == |bytes| / 3 * 4
  {
    if bytes == [] then "" else EncodeGroup(bytes[0], bytes[1], bytes[2]) + Encode(bytes[3..])
  }

  lemma {:induction false} EncodeInjective(a: seq<Byte>, b: seq<Byte>)
    requires |a| % 3 == 0 && |b| % 3 == 0 && Encode(a) == Encode(b)
    ensures a == b
  {
    if a == [] || b == [] {
      assert |Encode(a)| == |Encode(b)|;
    } else {
      GroupDecodes(a[0], a[1], a[2]);
      GroupDecodes(b[0], b[1], b[2]);
      assert Encode(a)[..4] == EncodeGroup(a[0], a[1], a[2]);
      assert Encode(b)[..4] == EncodeGroup(b[0], b[1], b[2]);
      assert Encode(a)[4..] == Encode(a[3..]) && Encode(b)[4..] == Encode(b[3..]);
      EncodeInjective(a[3..], b[3..]);
      assert a == [a[0], a[1], a[2]] + a[3..];
      assert b == [b[0], b[1], b[2]] + b[3..];
    }
  }

  // ---------------------------------------------------------------------------
  // Block ids
  // ---------------------------------------------------------------------------

  function Bytes(s: string): (bytes: seq<Byte>)
    requires forall i :: 0 <= i < |s| ==> s[i] < 256 as char
    ensures |bytes| == |s| && forall i :: 0 <= i < |s| ==> bytes[i] == s[i] as nat
  {
    seq(|s|, i requires 0 <= i < |s| => s[i] as nat)
  }

  /** The id of block `k`, whose number prints as exactly six characters. */
  function BlockId(k: nat): (id: string)
    requires |Printed(k)| == 6
    ensures |id| == 8
  {
    Encode(Bytes(Printed(k)))
  }

  lemma BlockIdInjective(j: nat, k: nat)
    requires j < 1000000 && k < 1000000
    ensures |Printed(j)| == 6 && |Printed(k)| == 6
    ensures BlockId(j) == BlockId(k) ==> j == k
  {
    PrintedLength(j);
    PrintedLength(k);
    if BlockId(j) == BlockId(k) {
      EncodeInjective(Bytes(Printed(j)), Bytes(Printed(k)));
      assert forall i :: 0 <= i < 6 ==> Printed(j)[i] as nat == Bytes(Printed(j))[i] == Printed(k)[i] as nat;
      assert Printed(j) == Printed(k);
      PrintedReads(j);
      PrintedReads(k);
    }
  }

  predicate Alphanumeric(c: char)
  {
    'A' <= c <= 'Z' || 'a' <= c <= 'z' || '0' <= c <= '9'
  }

  lemma GroupAlphanumeric(a: Byte, b: Byte, c: Byte)
    requires (a == 32 || 48 <= a < 58) && (b == 32 || 48 <= b < 58) && (c == 32 || 48 <= c < 58)
    ensures forall i :: 0 <= i < 4 ==> Alphanumeric(EncodeGroup(a, b, c)[i])
  {
    assert c % 64 < 58 && b % 16 * 4 + c / 64 < 40 && a % 4 * 16 + b / 16 < 52 && a / 4 < 15;
  }

  /** An id needs no escaping, neither in the query string nor in the XML. */
  lemma BlockIdAlphanumeric(k: nat)
    requires |Printed(k)| == 6
    ensures forall i :: 0 <= i < 8 ==> Alphanumeric(BlockId(k)[i])
  {
    var b := Bytes(Printed(k));
    forall i | 0 <= i < 6 ensures b[i] == 32 || 48 <= b[i] < 58 {
      assert Printed(k)[i] == ' ' || '0' <= Printed(k)[i] <= '9';
    }
    GroupAlphanumeric(b[0], b[1], b[2]);
    GroupAlphanumeric(b[3], b[4], b[5]);
    assert b[3..][3..] == [];
    assert Encode(b) == EncodeGroup(b[0], b[1], b[2]) + (EncodeGroup(b[3], b[4], b[5]) + Encode([]));
  }
}
