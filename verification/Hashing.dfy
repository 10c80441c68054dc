/**
  The framed input of the content hashes. SHA-256 (section 6.2 of FIPS 180-4) is taken as
  collision-free, so the hash of a list of parts is represented by the bytes hashed: every
  part followed by a zero character.
 */
module Hashing {

  const NUL: char := '\0'
  const ALGORITHM_VERSION := "parcelgraph-topology-2.0"

  predicate NulFree(s: string) {
    NUL !in s
  }

  function Hash(parts: seq<string>): string {
    if |parts| == 0 then ""
    else Hash(parts[..|parts| - 1]) + parts[|parts| - 1] + [NUL]
  }

  method ComputeHash(parts: seq<string>) returns (digest: string)
    ensures digest == Hash(parts)
  {
    digest := "";
    for i := 0 to |parts|
      invariant digest == Hash(parts[..i])
    {
      assert parts[..i + 1][..i] == parts[..i];
      digest := digest + parts[i];
      digest := digest + [NUL];
    }
    assert parts[..|parts|] == parts;
  }

  lemma OnePartMore(parts: seq<string>, p: string)
    ensures Hash(parts + [p]) == Hash(parts) + p + "\0"
  {
    assert (parts + [p])[..|parts|] == parts;
  }

  /** One part is framed as itself and a zero. */
  lemma OnePart(p: string)
    ensures Hash([p]) == p + "\0"
  {
    OnePartMore([], p);
    assert [] + [p] == [p];
  }

  /** Parts are framed one by one: joining lists joins their framings. */
  lemma {:induction false} HashJoins(a: seq<string>, b: seq<string>)
    ensures Hash(a + b) == Hash(a) + Hash(b)
  {
    if |b| == 0 {
      assert a + b == a;
    } else {
      var m := |b| - 1;
      HashJoins(a, b[..m]);
      OnePartMore(a + b[..m], b[m]);
      OnePartMore(b[..m], b[m]);
      assert b[..m] + [b[m]] == b && a + b[..m] + [b[m]] == a + b;
      hide Hash;
    }
  }

  lemma HashEndsWithNul(parts: seq<string>)
    ensures |parts| == 0 ==> Hash(parts) == ""
    ensures |parts| > 0 ==> |Hash(parts)| > 0 && Hash(parts)[|Hash(parts)| - 1] == NUL
  {
  }

  /** Two frames that end the same way have the same last part. */
  lemma LastPartAgrees(a: string, p: string, b: string, q: string)
    requires a + p + [NUL] == b + q + [NUL] && NulFree(p) && NulFree(q)
    requires |a| > 0 ==> a[|a| - 1] == NUL
    requires |b| > 0 ==> b[|b| - 1] == NUL
    ensures a == b && p == q
  {
    var h, g := a + p + [NUL], b + q + [NUL];
    assert forall j | |a| <= j < |h| - 1 :: h[j] == p[j - |a|] && h[j] != NUL;
    assert forall j | |b| <= j < |g| - 1 :: g[j] == q[j - |b|] && g[j] != NUL;
    assert |a| > 0 ==> h[|a| - 1] == NUL;
    assert |b| > 0 ==> g[|b| - 1] == NUL;
    assert |a| == |b|;
    assert a == h[..|a|] && b == g[..|b|];
    assert p == h[|a|..|a| + |p|] && q == g[|b|..|b| + |q|];
  }

  /** The framing is injective: equal hashes mean equal lists of parts. */
  lemma {:induction false} HashIsInjective(a: seq<string>, b: seq<string>)
    requires Hash(a) == Hash(b)
    requires forall p | p in a :: NulFree(p)
    requires forall p | p in b :: NulFree(p)
    ensures a == b
  {
    HashEndsWithNul(a);
    HashEndsWithNul(b);
    if |a| > 0 && |b| > 0 {
      var m, n := |a| - 1, |b| - 1;
      HashEndsWithNul(a[..m]);
      HashEndsWithNul(b[..n]);
      LastPartAgrees(Hash(a[..m]), a[m], Hash(b[..n]), b[n]);
      HashIsInjective(a[..m], b[..n]);
      assert a == a[..m] + [a[m]] && b == b[..n] + [b[n]];
    }
  }

  // --- Numbers as text ---------------------------------------------------------------

  function Digit(d: nat): (c: char)
    requires d < 10
    ensures c != NUL
  {
    "0123456789"[d]
  }

  function Decimal(n: nat): (s: string)
    ensures |s| > 0 && NulFree(s)
    ensures n >= 10 ==> |s| > 1
  {
    if n < 10 then [Digit(n)] else Decimal(n / 10) + [Digit(n % 10)]
  }

  lemma DigitIsInjective(c: nat, d: nat)
    requires c < 10 && d < 10 && Digit(c) == Digit(d)
    ensures c == d
  {
  }

  lemma {:induction false} DecimalIsInjective(m: nat, n: nat)
    requires Decimal(m) == Decimal(n)
    ensures m == n
  {
    var s, t := Decimal(m), Decimal(n);
    assert s[|s| - 1] == Digit(m % 10) && t[|t| - 1] == Digit(n % 10);
    DigitIsInjective(m % 10, n % 10);
    if m >= 10 {
      assert Decimal(m / 10) == s[..|s| - 1] && Decimal(n / 10) == t[..|t| - 1];
      DecimalIsInjective(m / 10, n / 10);
    }
  }

  // --- The two hashes of a detection ----------------------------------------------------

  function RequestHash(proposalID: nat, toleranceText: string): string {
    Hash([Decimal(proposalID), toleranceText])
  }

  /** Equal request hashes mean the same proposal and the same tolerance text. */
  lemma RequestHashIdentifies(p: nat, t: string, q: nat, u: string)
    requires NulFree(t) && NulFree(u)
    ensures RequestHash(p, t) == RequestHash(q, u) <==> p == q && t == u
  {
    if RequestHash(p, t) == RequestHash(q, u) {
      HashIsInjective([Decimal(p), t], [Decimal(q), u]);
      assert [Decimal(p), t][0] == [Decimal(q), u][0];
      assert [Decimal(p), t][1] == [Decimal(q), u][1];
      DecimalIsInjective(p, q);
    }
  }

  /** What a detection reads: everything its findings depend on. */
  datatype DetectionInput = DetectionInput(
    boundary: string, proposed: string, coordinateSystem: string, toleranceText: string,
    neighbours: seq<(nat, string)>)

  function NeighbourParts(neighbours: seq<(nat, string)>): seq<string> {
    if |neighbours| == 0 then []
    else
      var last := neighbours[|neighbours| - 1];
      NeighbourParts(neighbours[..|neighbours| - 1]) + [Decimal(last.0), last.1]
  }

  function InputParts(input: DetectionInput): seq<string> {
    [input.boundary, input.proposed, input.coordinateSystem, input.toleranceText, ALGORITHM_VERSION]
    + NeighbourParts(input.neighbours)
  }

  function InputHash(input: DetectionInput): string {
    Hash(InputParts(input))
  }

  ghost predicate InputNulFree(input: DetectionInput) {
    && NulFree(input.boundary) && NulFree(input.proposed) && NulFree(input.coordinateSystem) && NulFree(input.toleranceText)
    && forall n | n in input.neighbours :: NulFree(n.1)
  }

  lemma {:induction false} NeighbourPartsIdentify(a: seq<(nat, string)>, b: seq<(nat, string)>)
    requires NeighbourParts(a) == NeighbourParts(b)
    ensures a == b
  {
    if |a| > 0 && |b| > 0 {
      var m, n := |a| - 1, |b| - 1;
      var x, y := NeighbourParts(a), NeighbourParts(b);
      assert x[..|x| - 2] == NeighbourParts(a[..m]) && y[..|y| - 2] == NeighbourParts(b[..n]);
      assert x[|x| - 2] == Decimal(a[m].0) && y[|y| - 2] == Decimal(b[n].0);
      assert x[|x| - 1] == a[m].1 && y[|y| - 1] == b[n].1;
      DecimalIsInjective(a[m].0, b[n].0);
      NeighbourPartsIdentify(a[..m], b[..n]);
      assert a == a[..m] + [a[m]] && b == b[..n] + [b[n]];
    }
  }

  lemma {:induction false} NeighbourPartsNulFree(neighbours: seq<(nat, string)>)
    requires forall n | n in neighbours :: NulFree(n.1)
    ensures forall p | p in NeighbourParts(neighbours) :: NulFree(p)
  {
    if |neighbours| > 0 {
      NeighbourPartsNulFree(neighbours[..|neighbours| - 1]);
    }
  }

  /**
    Equal input hashes mean equal inputs: boundary, proposal, coordinate system, tolerance text
    and the whole list of neighbours.
   */
  lemma InputHashIdentifies(a: DetectionInput, b: DetectionInput)
    requires InputNulFree(a) && InputNulFree(b)
    ensures InputHash(a) == InputHash(b) <==> a == b
  {
    if InputHash(a) == InputHash(b) {
      NeighbourPartsNulFree(a.neighbours);
      NeighbourPartsNulFree(b.neighbours);
      assert NulFree(ALGORITHM_VERSION);
      var x, y := InputParts(a), InputParts(b);
      HashIsInjective(x, y);
      assert x[5..] == NeighbourParts(a.neighbours) && y[5..] == NeighbourParts(b.neighbours);
      NeighbourPartsIdentify(a.neighbours, b.neighbours);
      assert x[0] == y[0] && x[1] == y[1] && x[2] == y[2] && x[3] == y[3];
    }
  }

  // --- What the texts are ----------------------------------------------------------------------

  predicate IsDigit(c: char) {
    '0' <= c <= '9'
  }

  /** The number a string of digits writes. */
  function ValueOf(s: string): nat
    requires forall i | 0 <= i < |s| :: IsDigit(s[i])
  {
    if |s| == 0 then 0
    else
      var last := s[|s| - 1];
      assert IsDigit(last);
      10 * ValueOf(s[..|s| - 1]) + (last as int - '0' as int)
  }

  /** Identifiers are written in decimal digits, without a leading zero. */
  lemma {:induction false} DecimalIsRead(n: nat)
    ensures forall i | 0 <= i < |Decimal(n)| :: IsDigit(Decimal(n)[i])
    ensures ValueOf(Decimal(n)) == n
    ensures n > 0 ==> Decimal(n)[0] != '0'
  {
    if n >= 10 {
      DecimalIsRead(n / 10);
      assert Decimal(n)[..|Decimal(n)| - 1] == Decimal(n / 10);
    } else {
      assert Decimal(n)[..0] == [];
    }
  }

  /** What the input hash covers, in order: five texts, then identifier and boundary of each neighbour. */
  lemma InputIsFramed(input: DetectionInput)
    ensures InputHash(input) ==
      input.boundary + "\0" + input.proposed + "\0" + input.coordinateSystem + "\0" + input.toleranceText + "\0"
      + "parcelgraph-topology-2.0" + "\0" + Hash(NeighbourParts(input.neighbours))
  {
    hide Hash, NeighbourParts;
    var a, b, c, d, e := input.boundary, input.proposed, input.coordinateSystem, input.toleranceText, ALGORITHM_VERSION;
    HashJoins([a, b, c, d, e], NeighbourParts(input.neighbours));
    HashJoins([a, b, c, d], [e]);
    HashJoins([a, b, c], [d]);
    HashJoins([a, b], [c]);
    HashJoins([a], [b]);
    OnePart(a);
    OnePart(b);
    OnePart(c);
    OnePart(d);
    OnePart(e);
    assert [a] + [b] == [a, b] && [a, b] + [c] == [a, b, c] && [a, b, c] + [d] == [a, b, c, d] && [a, b, c, d] + [e] == [a, b, c, d, e];
  }

  lemma {:induction false} NeighboursAreFramed(a: seq<(nat, string)>, b: seq<(nat, string)>)
    ensures NeighbourParts([]) == []
    ensures forall n :: NeighbourParts([n]) == [Decimal(n.0), n.1]
    ensures NeighbourParts(a + b) == NeighbourParts(a) + NeighbourParts(b)
  {
    hide Decimal;
    assert forall n: (nat, string) :: [n][..0] == [];
    if |b| == 0 {
      assert a + b == a;
    } else {
      NeighboursAreFramed(a, b[..|b| - 1]);
      assert (a + b)[..|a + b| - 1] == a + b[..|b| - 1];
    }
  }
}
