/**
 * IPv4 address blocks in CIDR prefix notation ("a.b.c.d/n", section 3.1 of
 * RFC 4632): the block holds the 2^(32-n) addresses that share the first n
 * bits of a.b.c.d, and a well-formed block has its host bits zero.
 */
module Cidr {
  import opened Decimal

  datatype Block = Block(a: nat, b: nat, c: nat, d: nat, prefix: nat)

  function Pow2(n: nat): (p: nat)
    ensures p >= 1
  {
    if n == 0 then 1 else 2 * Pow2(n - 1)
  }

  lemma {:induction false} Pow2Add(m: nat, n: nat)
    ensures Pow2(m + n) == Pow2(m) * Pow2(n)
    decreases m
  {
    if m > 0 {
      Pow2Add(m - 1, n);
    }
  }

  /** The block's first address as a 32-bit number. */
  function Start(x: Block): nat
  {
    ((x.a * 256 + x.b) * 256 + x.c) * 256 + x.d
  }

  function Size(x: Block): (n: nat)
    requires x.prefix <= 32
    ensures n >= 1
  {
    Pow2(32 - x.prefix)
  }

  ghost predicate WellFormed(x: Block)
  {
    x.a < 256 && x.b < 256 && x.c < 256 && x.d < 256 && x.prefix <= 32 &&
    Start(x) % Size(x) == 0
  }

  /** The text the block is written as. */
  function Text(x: Block): string
  {
    Digits(x.a) + "." + Digits(x.b) + "." + Digits(x.c) + "." + Digits(x.d) + "/" + Digits(x.prefix)
  }

  ghost predicate Contains(x: Block, addr: nat)
    requires x.prefix <= 32
  {
    Start(x) <= addr < Start(x) + Size(x)
  }

  /** No address lies in both blocks. */
  ghost predicate Disjoint(x: Block, y: Block)
    requires x.prefix <= 32 && y.prefix <= 32
  {
    forall addr: nat :: !(Contains(x, addr) && Contains(y, addr))
  }

  /** Every address of `inner` lies in `outer`. */
  ghost predicate Within(inner: Block, outer: Block)
    requires inner.prefix <= 32 && outer.prefix <= 32
  {
    forall addr: nat :: Contains(inner, addr) ==> Contains(outer, addr)
  }

  /** Two multiples of a positive `s` that differ are at least `s` apart. */
  lemma {:induction false} MultiplesApart(p: nat, q: nat, s: nat)
    requires s >= 1 && p % s == 0 && q % s == 0 && p < q
    ensures p + s <= q
  {
    var k: int := q / s - p / s;
    assert q - p == k * s;
    assert k >= 1;
    assert k * s >= s;
  }

  /** Two aligned intervals of the same length `s` that start apart are at least `s` apart. */
  lemma {:induction false} AlignedIntervalsApart(p: nat, q: nat, s: nat)
    requires s >= 1 && p % s == 0 && q % s == 0 && p != q
    ensures p + s <= q || q + s <= p
  {
    if p < q {
      MultiplesApart(p, q, s);
    } else {
      MultiplesApart(q, p, s);
    }
  }

  /** Distinct well-formed blocks of the same length never overlap. */
  lemma {:induction false} SameLengthBlocksDisjoint(x: Block, y: Block)
    requires WellFormed(x) && WellFormed(y)
    requires x.prefix == y.prefix && Start(x) != Start(y)
    ensures Disjoint(x, y)
  {
    var p, q, s := Start(x), Start(y), Size(x);
    AlignedIntervalsApart(p, q, s);
    forall addr: nat
      ensures !(Contains(x, addr) && Contains(y, addr))
    {
      assert Contains(x, addr) ==> p <= addr < p + s;
      assert Contains(y, addr) ==> q <= addr < q + s;
    }
  }

  /** A block lies inside another exactly when its range of addresses does. */
  lemma {:induction false} WithinByRange(inner: Block, outer: Block)
    requires inner.prefix <= 32 && outer.prefix <= 32
    ensures Within(inner, outer) <==>
      Start(outer) <= Start(inner) && Start(inner) + Size(inner) <= Start(outer) + Size(outer)
  {
    if Within(inner, outer) {
      assert Contains(inner, Start(inner));
      assert Contains(inner, Start(inner) + Size(inner) - 1);
    }
  }
}
