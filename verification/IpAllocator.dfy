/**
 The address allocator of the constellation: the first free address of a range, found by counting
 up through the four bytes of an address in place.
 */
module IpAllocator {
  import opened Text

  type Octet = x: int | 0 <= x < 256

  type Address = a: seq<Octet> | |a| == 4 witness [0, 0, 0, 0]

  const TOP: int := 0x1_0000_0000

  function Pow(b: nat, n: nat): (r: nat)
    ensures b > 0 ==> r > 0
  {
    if n == 0 then 1 else b * Pow(b, n - 1)
  }

  /** The number the bytes spell, most significant first. */
  function Value(s: seq<Octet>): (r: nat)
    ensures r < Pow(256, |s|)
  {
    if s == [] then 0 else 256 * Value(s[..|s| - 1]) + s[|s| - 1]
  }

  lemma {:induction false} ValueInjective(a: seq<Octet>, b: seq<Octet>)
    requires |a| == |b| && Value(a) == Value(b)
    ensures a == b
    decreases |a|
  {
    if a != [] {
      var n := |a| - 1;
      ValueInjective(a[..n], b[..n]);
      assert a == a[..n] + [a[n]] && b == b[..n] + [b[n]];
    }
  }

  lemma ValueOfFour(a: Address)
    ensures Value(a) == 256 * (256 * (256 * (a[0] as int) + a[1]) + a[2]) + a[3]
    ensures Value(a) < TOP
  {
    assert a[..3][..2] == a[..2] && a[..2][..1] == a[..1] && a[..1][..0] == [];
    assert Value(a[..1]) == a[0];
    assert Value(a[..2]) == 256 * Value(a[..1]) + a[1];
    assert Value(a[..3]) == 256 * Value(a[..2]) + a[2];
  }

  // ----- counting up

  lemma SmallMod(x: int, m: int)
    requires 0 <= x < m
    ensures x % m == x
  {
  }

  /** A byte weighs 256 to the number of bytes after it. */
  lemma {:induction false} ValueUpdate(s: seq<Octet>, j: nat, x: Octet, d: int)
    requires j < |s| && x == s[j] + d
    ensures Value(s[j := x]) == Value(s) + d * Pow(256, |s| - 1 - j)
    decreases |s|
  {
    var n := |s| - 1;
    var t := s[j := x];
    if j == n {
      assert t[..n] == s[..n];
    } else {
      assert t[..n] == s[..n][j := x];
      ValueUpdate(s[..n], j, x, d);
      assert 256 * (d * Pow(256, n - 1 - j)) == d * (256 * Pow(256, n - 1 - j));
    }
  }

  lemma CarryUp(s: seq<Octet>, j: nat, weight: nat)
    requires j < |s| && weight == Pow(256, |s| - 1 - j) && s[j] < 255
    ensures Value(s[j := s[j] + 1]) == Value(s) + weight
  {
    ValueUpdate(s, j, s[j] + 1, 1);
  }

  lemma CarryOver(s: seq<Octet>, j: nat, weight: nat)
    requires j < |s| && weight == Pow(256, |s| - 1 - j) && s[j] == 255
    ensures Value(s[j := 0]) + 256 * weight == Value(s) + weight
  {
    ValueUpdate(s, j, 0, -255);
  }

  lemma Carry(s: seq<Octet>, j: nat, weight: nat)
    requires j < |s| && weight == Pow(256, |s| - 1 - j)
    ensures s[j] < 255 ==> Value(s[j := s[j] + 1]) == Value(s) + weight
    ensures s[j] == 255 ==> Value(s[j := 0]) + 256 * weight == Value(s) + weight
    ensures 256 * weight == Pow(256, |s| - j)
  {
    if s[j] < 255 {
      CarryUp(s, j, weight);
    } else {
      CarryOver(s, j, weight);
    }
  }

  lemma Wrapped(v: nat, top: nat)
    requires v < top
    ensures (v + 1) % top == if v + 1 < top then v + 1 else 0
  {
    if v + 1 < top {
      SmallMod(v + 1, top);
    }
  }

  /** Carrying through the bytes is adding one, modulo 256 to the number of bytes. */
  method IncrementIP(ip: array<Octet>)
    modifies ip
    ensures Value(ip[..]) == (Value(old(ip[..])) + 1) % Pow(256, ip.Length)
  {
    ghost var was := Value(ip[..]);
    ghost var weight := 1;
    Wrapped(was, Pow(256, ip.Length));
    var j := ip.Length - 1;
    while j >= 0
      invariant -1 <= j < ip.Length
      invariant weight == Pow(256, ip.Length - 1 - j)
      invariant Value(ip[..]) + weight == was + 1
    {
      ghost var s := ip[..];
      var x: Octet := if ip[j] == 255 then 0 else ip[j] + 1;
      Carry(s, j, weight);
      ip[j] := x;
      assert ip[..] == s[j := x];
      if ip[j] > 0 {
        return;
      }
      j, weight := j - 1, 256 * weight;
    }
  }

  // ----- ranges

  /** What the range text parses to. Anything but an IPv4 range yields no address. */
  datatype Network = NotV4 | V4(base: Address, prefix: nat)

  function Size(prefix: nat): (r: nat)
    requires prefix <= 32
    ensures r > 0
  {
    Pow(2, 32 - prefix)
  }

  /** Parsing clears the bits after the prefix. */
  ghost predicate Parsed(net: Network) {
    net.V4? ==> net.prefix <= 32 && Value(net.base) % Size(net.prefix) == 0
  }

  /** The bits of the prefix agree. */
  predicate Contains(net: Network, a: Address)
    requires net.V4? && net.prefix <= 32
  {
    Value(a) / Size(net.prefix) == Value(net.base) / Size(net.prefix)
  }

  lemma TimesTwice(b: nat, x: nat, y: nat)
    ensures b * (x * y) == (b * x) * y
  {
  }

  lemma {:induction false} PowAdd(b: nat, m: nat, n: nat)
    ensures Pow(b, m + n) == Pow(b, m) * Pow(b, n)
    decreases m
  {
    if m > 0 {
      var x, y := Pow(b, m - 1), Pow(b, n);
      calc {
        Pow(b, m + n);
        b * Pow(b, m - 1 + n);
        { PowAdd(b, m - 1, n); }
        b * (x * y);
        { TimesTwice(b, x, y); }
        (b * x) * y;
        Pow(b, m) * y;
      }
    }
  }

  lemma SameQuotient(v: nat, base: nat, size: nat)
    requires size > 0 && base % size == 0
    ensures v / size == base / size <==> base <= v < base + size
  {
    var q := base / size;
    assert base == size * q;
    if base <= v < base + size {
      assert v == size * q + (v - base);
      QuotientIs(v, size, q, v - base);
    }
    if v / size == q {
      assert v == size * q + v % size;
    }
  }

  lemma Spread(size: nat, p: nat, q: nat)
    requires p < q
    ensures size * p + size <= size * q
  {
    assert size * (p + 1) <= size * q;
  }

  lemma QuotientIs(v: nat, size: nat, q: nat, r: nat)
    requires size > 0 && r < size && v == size * q + r
    ensures v / size == q
  {
    var p := v / size;
    assert v == size * p + v % size;
    if p < q {
      Spread(size, p, q);
    } else if q < p {
      Spread(size, q, p);
    }
  }

  lemma PowTwo()
    ensures Pow(2, 32) == TOP
  {
    assert Pow(2, 4) == 16;
    assert Pow(2, 4 + 4) == 256 by { PowAdd(2, 4, 4); }
    assert Pow(2, 8 + 8) == 0x1_0000 by { PowAdd(2, 8, 8); }
    assert Pow(2, 16 + 16) == TOP by { PowAdd(2, 16, 16); }
  }

  lemma PowByte()
    ensures Pow(256, 4) == TOP
  {
    assert Pow(256, 1) == 256;
    assert Pow(256, 1 + 1) == 0x1_0000 by { PowAdd(256, 1, 1); }
    assert Pow(256, 2 + 2) == TOP by { PowAdd(256, 2, 2); }
  }

  /** A range is an interval of 2^(32 - prefix) addresses inside the 32-bit space. */
  lemma RangeIsInterval(net: Network, a: Address)
    requires Parsed(net) && net.V4?
    ensures Contains(net, a) <==> Value(net.base) <= Value(a) < Value(net.base) + Size(net.prefix)
    ensures Value(net.base) + Size(net.prefix) <= TOP
    ensures Value(net.base) + Size(net.prefix) == TOP && net.prefix >= 1 ==> Value(net.base) > 0
  {
    var base, size, blocks := Value(net.base), Size(net.prefix), Pow(2, net.prefix);
    SameQuotient(Value(a), base, size);
    ValueOfFour(net.base);
    PowTwo();
    PowAdd(2, 32 - net.prefix, net.prefix);
    LastBlock(base, size, blocks);
    if net.prefix >= 1 {
      assert blocks == 2 * Pow(2, net.prefix - 1);
      Spread(size, 1, blocks);
    }
  }

  lemma LastBlock(base: nat, size: nat, blocks: nat)
    requires size > 0 && base % size == 0 && base < size * blocks
    ensures base + size <= size * blocks
  {
    var q := base / size;
    assert base == size * q;
    if q < blocks {
      Spread(size, q, blocks);
    }
  }

  // ----- the search

  /** The text of an address. */
  function Dotted(a: Address): string {
    Decimal(a[0]) + "." + Decimal(a[1]) + "." + Decimal(a[2]) + "." + Decimal(a[3])
  }

  predicate Usable(a: Address) {
    a[3] != 0 && a[3] != 255
  }

  ghost predicate Free(net: Network, used: set<string>, a: Address)
    requires Parsed(net)
  {
    net.V4? && Contains(net, a) && Usable(a) && Dotted(a) !in used
  }

  /** Nothing below this value is free. */
  ghost predicate NoneBelow(net: Network, used: set<string>, v: int)
    requires Parsed(net)
  {
    forall a: Address | Free(net, used, a) :: v <= Value(a)
  }

  /** Nothing free below, and the address with this value is not free: nothing free below the next. */
  lemma NotThisOne(net: Network, used: set<string>, a: Address)
    requires Parsed(net) && !Free(net, used, a) && NoneBelow(net, used, Value(a))
    ensures NoneBelow(net, used, Value(a) + 1)
  {
    forall b: Address | Free(net, used, b) ensures Value(a) + 1 <= Value(b) {
      if Value(b) == Value(a) {
        ValueInjective(a, b);
      }
    }
  }

  /** When the range is the whole space and something in it is free, the count stops before it wraps. */
  lemma FreeBeforeTheEnd(net: Network, used: set<string>, a: Address)
    requires Parsed(net) && NoneBelow(net, used, Value(a)) && exists b :: Free(net, used, b)
    ensures Value(a) + 1 < TOP
  {
    var b :| Free(net, used, b);
    ValueOfFour(a);
    ValueOfFour(b);
  }

  // ----- the same, in terms of the four numbers of an address

  function Number(a: Address): int {
    0x100_0000 * (a[0] as int) + 0x1_0000 * (a[1] as int) + 0x100 * (a[2] as int) + a[3]
  }

  /** Four numbers with dots between them. */
  predicate Spells(text: string, a: Address) {
    var parts := Split(text, '.');
    |parts| == 4 && forall i | 0 <= i < 4 :: Writes(parts[i], a[i])
  }

  /** An address of the range that does not end in 0 or 255 and whose text is not in use. */
  ghost predicate Open(net: Network, used: set<string>, a: Address)
    requires net.V4? ==> net.prefix <= 32
  {
    && net.V4? && Number(net.base) <= Number(a) < Number(net.base) + Pow(2, 32 - net.prefix)
    && a[3] != 0 && a[3] != 255
    && forall text | text in used :: !Spells(text, a)
  }

  lemma SpellsIsDotted(text: string, a: Address)
    ensures Spells(text, a) <==> text == Dotted(a)
  {
    DottedParts(a);
    forall i | 0 <= i < 4 ensures Writes(Decimal(a[i]), a[i]) {
      DecimalReads(a[i]);
      assert a[i] == 0 ==> Decimal(a[i]) == "0";
    }
    if Spells(text, a) {
      SpelledParts(text, a);
      UnsplitSplit(text, '.');
      UnsplitSplit(Dotted(a), '.');
    }
  }

  lemma SpelledParts(text: string, a: Address)
    requires Spells(text, a)
    ensures Split(text, '.') == [Decimal(a[0]), Decimal(a[1]), Decimal(a[2]), Decimal(a[3])]
  {
    var parts := Split(text, '.');
    forall i | 0 <= i < 4 ensures parts[i] == Decimal(a[i]) {
      WrittenOnce(parts[i], a[i]);
    }
  }

  lemma FreeIsOpen(net: Network, used: set<string>, a: Address)
    requires Parsed(net)
    ensures Free(net, used, a) <==> Open(net, used, a)
  {
    if net.V4? {
      RangeIsInterval(net, a);
      ValueOfFour(a);
      ValueOfFour(net.base);
      forall text ensures Spells(text, a) <==> text == Dotted(a) {
        SpellsIsDotted(text, a);
      }
      assert Spells(Dotted(a), a);
    }
  }

  /** The lowest open address, spelled out. */
  ghost predicate Lowest(net: Network, used: set<string>, a: Address, text: string)
    requires Parsed(net)
  {
    Open(net, used, a) && Spells(text, a) && forall b | Open(net, used, b) :: Number(a) <= Number(b)
  }

  lemma LowestFree(net: Network, used: set<string>, a: Address)
    requires Parsed(net) && Free(net, used, a) && NoneBelow(net, used, Value(a))
    ensures Lowest(net, used, a, Dotted(a))
  {
    FreeIsOpen(net, used, a);
    SpellsIsDotted(Dotted(a), a);
    ValueOfFour(a);
    forall b | Open(net, used, b) ensures Number(a) <= Number(b) {
      FreeIsOpen(net, used, b);
      ValueOfFour(b);
    }
  }

  lemma NothingOpen(net: Network, used: set<string>)
    requires Parsed(net) && forall a: Address :: !Free(net, used, a)
    ensures forall a: Address :: !Open(net, used, a)
  {
    forall a: Address ensures !Open(net, used, a) {
      FreeIsOpen(net, used, a);
    }
  }

  // ----- the method

  method GetNextAvailableIP(used: set<string>, net: Network) returns (r: string)
    requires Parsed(net)
    requires net.V4? && net.prefix == 0 ==> exists a :: Free(net, used, a)
    ensures r == "" <==> forall a: Address :: !Free(net, used, a)
    ensures r != "" ==> exists a: Address :: Free(net, used, a) && r == Dotted(a) && NoneBelow(net, used, Value(a))
    ensures r == "" <==> forall a: Address :: !Open(net, used, a)
    ensures r != "" ==> exists a: Address :: Lowest(net, used, a, r)
  {
    if net.NotV4? {
      NothingOpen(net, used);
      return "";
    }
    var ip := new Octet[4](i requires 0 <= i < 4 => net.base[i]);
    assert ip[..] == net.base;
    ghost var end := Value(net.base) + Size(net.prefix);
    Begin(net, used);
    while Contains(net, ip[..])
      invariant fresh(ip) && ip.Length == 4
      invariant NoneBelow(net, used, if Contains(net, ip[..]) then Value(ip[..]) else end)
      decreases if Contains(net, ip[..]) then end - Value(ip[..]) else 0
    {
      ghost var a: Address := ip[..];
      RangeIsInterval(net, a);
      if Usable(ip[..]) {
        var text := Dotted(ip[..]);
        if text !in used {
          assert text[0] == Decimal(a[0])[0] && Free(net, used, a);
          LowestFree(net, used, a);
          return text;
        }
      }
      IncrementIP(ip);
      Advance(net, used, a, ip[..]);
      NotThisOne(net, used, a);
    }
    NoneLeft(net, used);
    NothingOpen(net, used);
    r := "";
  }

  lemma Begin(net: Network, used: set<string>)
    requires Parsed(net) && net.V4?
    ensures Contains(net, net.base) && NoneBelow(net, used, Value(net.base))
  {
    forall a: Address | Free(net, used, a) ensures Value(net.base) <= Value(a) {
      RangeIsInterval(net, a);
    }
  }

  lemma NoneLeft(net: Network, used: set<string>)
    requires Parsed(net) && net.V4? && NoneBelow(net, used, Value(net.base) + Size(net.prefix))
    ensures forall a: Address :: !Free(net, used, a)
  {
    forall a: Address ensures !Free(net, used, a) {
      RangeIsInterval(net, a);
    }
  }

  lemma Wraps(a: Address, b: Address)
    requires Value(b) == (Value(a) + 1) % Pow(256, 4)
    ensures Value(b) == if Value(a) + 1 < TOP then Value(a) + 1 else 0
  {
    ValueOfFour(a);
    PowByte();
    Wrapped(Value(a), TOP);
  }

  /** The next address is one up and still in range, or the range is done. */
  lemma Advance(net: Network, used: set<string>, a: Address, b: Address)
    requires Parsed(net) && net.V4? && Contains(net, a)
    requires net.prefix == 0 ==> exists f :: Free(net, used, f)
    requires NoneBelow(net, used, Value(a)) && Value(b) == (Value(a) + 1) % Pow(256, 4)
    ensures if Contains(net, b) then Value(b) == Value(a) + 1
            else Value(a) + 1 == Value(net.base) + Size(net.prefix)
  {
    var base, size := Value(net.base), Size(net.prefix);
    assert base <= Value(a) < base + size && base + size <= TOP by { RangeIsInterval(net, a); }
    assert Contains(net, b) <==> base <= Value(b) < base + size by { RangeIsInterval(net, b); }
    Wraps(a, b);
    if net.prefix == 0 {
      FreeBeforeTheEnd(net, used, a);
    } else {
      assert base + size == TOP ==> base > 0 by { RangeIsInterval(net, a); }
    }
  }

  /** Without a free address the count through the whole 32-bit space never ends: every address is in
      range and none is returned. */
  lemma WholeSpaceNeverEnds(net: Network, used: set<string>, a: Address)
    requires Parsed(net) && net.V4? && net.prefix == 0 && forall b: Address :: !Free(net, used, b)
    ensures Contains(net, a) && (Usable(a) ==> Dotted(a) in used)
  {
    assert !Free(net, used, a);
    RangeIsInterval(net, a);
    ValueOfFour(a);
    ValueOfFour(net.base);
    assert Size(net.prefix) == TOP by { PowTwo(); }
    SmallMod(Value(net.base), TOP);
  }

  // ----- the text names the address

  lemma {:induction false} DottedInjective(a: Address, b: Address)
    requires Dotted(a) == Dotted(b)
    ensures a == b
  {
    DottedParts(a);
    DottedParts(b);
    forall i | 0 <= i < 4 ensures a[i] == b[i] {
      DecimalInjective(a[i], b[i]);
    }
  }

  lemma NumberFirst(n: nat, rest: string)
    ensures Split(Decimal(n) + "." + rest, '.') == [Decimal(n)] + Split(rest, '.')
  {
    DecimalDigits(n);
    SplitFirst(Decimal(n), '.', rest);
  }

  lemma DottedParts(a: Address)
    ensures Split(Dotted(a), '.') == [Decimal(a[0]), Decimal(a[1]), Decimal(a[2]), Decimal(a[3])]
  {
    var d2 := Decimal(a[2]) + "." + Decimal(a[3]);
    var d1 := Decimal(a[1]) + "." + d2;
    assert Dotted(a) == Decimal(a[0]) + "." + d1;
    NumberFirst(a[0], d1);
    NumberFirst(a[1], d2);
    NumberFirst(a[2], Decimal(a[3]));
    DecimalDigits(a[3]);
    SplitPlain(Decimal(a[3]), '.');
  }
}
