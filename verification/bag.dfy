/**
 The weighted sampler: the catalogue expanded into a flat bag in which each
 symbol appears `weight` times, and a draw of three uniform positions in it.
 */
module Bag {
  import opened Symbols

  /** `n` copies of `s`. */
  function Repeat(s: Symbol, n: nat): (r: seq<Symbol>)
    ensures |r| == n
    ensures forall i :: 0 <= i < n ==> r[i] == s
  {
    seq(n, _ => s)
  }

  /** Sum of the weights of a table. */
  function TotalWeight(t: seq<Symbol>): nat
  {
    if |t| == 0 then 0 else TotalWeight(t[..|t| - 1]) + t[|t| - 1].Weight()
  }

  /** Reference definition of the bag: the blocks of each entry, in table order. */
  function Expand(t: seq<Symbol>): seq<Symbol>
  {
    if |t| == 0 then [] else Expand(t[..|t| - 1]) + Repeat(t[|t| - 1], t[|t| - 1].Weight())
  }

  /** The bag built once from the catalogue and sampled by every spin. */
  const BAG: seq<Symbol> := Expand(SYMBOLS)

  /** Builds the bag by pushing each symbol `weight` times, table entry by table entry. */
  method WeightedBag(symbols: seq<Symbol>) returns (bag: seq<Symbol>)
    ensures bag == Expand(symbols)
  {
    bag := [];
    for k := 0 to |symbols|
      invariant bag == Expand(symbols[..k])
    {
      var s := symbols[k];
      var i := 0;
      while i < s.Weight()
        invariant 0 <= i <= s.Weight()
        invariant bag == Expand(symbols[..k]) + Repeat(s, i)
      {
        bag := bag + [s];
        i := i + 1;
      }
      assert symbols[..k + 1][..k] == symbols[..k];
    }
    assert symbols[..|symbols|] == symbols;
  }

  /** The bag is as long as the total weight of the table. */
  lemma {:induction false} ExpandLength(t: seq<Symbol>)
    ensures |Expand(t)| == TotalWeight(t)
  {
    if |t| > 0 {
      ExpandLength(t[..|t| - 1]);
    }
  }

  lemma {:induction false} RepeatCount(x: Symbol, n: nat, s: Symbol)
    ensures multiset(Repeat(x, n))[s] == if x == s then n else 0
  {
    if n > 0 {
      RepeatCount(x, n - 1, s);
      assert Repeat(x, n) == Repeat(x, n - 1) + [x];
    }
  }

  lemma CountConcat(p: seq<Symbol>, q: seq<Symbol>, s: Symbol)
    ensures multiset(p + q)[s] == multiset(p)[s] + multiset(q)[s]
  {
    assert multiset(p + q) == multiset(p) + multiset(q);
  }

  /** How many bag entries a table contributes for `s`, summed entry by entry. */
  function WeightOf(t: seq<Symbol>, s: Symbol): nat
  {
    if |t| == 0 then 0
    else WeightOf(t[..|t| - 1], s) + (if t[|t| - 1] == s then s.Weight() else 0)
  }

  lemma {:induction false} ExpandCountSum(t: seq<Symbol>, s: Symbol)
    ensures multiset(Expand(t))[s] == WeightOf(t, s)
  {
    if |t| > 0 {
      var u, x := t[..|t| - 1], t[|t| - 1];
      assert Expand(t) == Expand(u) + Repeat(x, x.Weight());
      CountConcat(Expand(u), Repeat(x, x.Weight()), s);
      RepeatCount(x, x.Weight(), s);
      ExpandCountSum(u, s);
    }
  }

  lemma {:induction false} WeightOfProduct(t: seq<Symbol>, s: Symbol)
    ensures WeightOf(t, s) == multiset(t)[s] * s.Weight()
  {
    if |t| > 0 {
      var u, x := t[..|t| - 1], t[|t| - 1];
      assert t == u + [x];
      CountConcat(u, [x], s);
      WeightOfProduct(u, s);
      var c, w := multiset(u)[s], s.Weight();
      if x == s {
        assert (c + 1) * w == c * w + w;
      }
    }
  }

  /** Each symbol occurs in the bag `weight` times for every time it is listed in the table. */
  lemma ExpandCount(t: seq<Symbol>, s: Symbol)
    ensures multiset(Expand(t))[s] == multiset(t)[s] * s.Weight()
  {
    ExpandCountSum(t, s);
    WeightOfProduct(t, s);
  }

  /** The bag built from a prefix of the table is a prefix of the whole bag. */
  lemma {:induction false} ExpandPrefix(t: seq<Symbol>, j: nat)
    requires j <= |t|
    ensures Expand(t[..j]) <= Expand(t)
    decreases |t|
  {
    if j < |t| {
      var u := t[..|t| - 1];
      assert t[..j] == u[..j];
      ExpandPrefix(u, j);
    } else {
      assert t[..j] == t;
    }
  }

  /** Entry `k` of the table occupies one contiguous block of the bag, right
      after the blocks of the entries before it. */
  lemma BagBlock(t: seq<Symbol>, k: nat)
    requires k < |t|
    ensures TotalWeight(t[..k]) + t[k].Weight() <= |Expand(t)|
    ensures Expand(t)[TotalWeight(t[..k])..TotalWeight(t[..k]) + t[k].Weight()]
            == Repeat(t[k], t[k].Weight())
  {
    var p, q := t[..k], t[..k + 1];
    assert q[..k] == p;
    assert Expand(q) == Expand(p) + Repeat(t[k], t[k].Weight());
    ExpandLength(p);
    ExpandPrefix(t, k + 1);
  }

  /** Independent reference for the catalogue's bag: the symbol owning
      position `i`, found by comparing against the cumulative weights
      120, 240, 330, 390, 420 and 429. */
  function CumulativeLookup(i: nat): Symbol
  {
    if i < 120 then Cherry
    else if i < 240 then Lemon
    else if i < 330 then Bell
    else if i < 390 then Clover
    else if i < 420 then Diamond
    else Seven
  }

  lemma CatalogueOffsets()
    ensures TotalWeight(SYMBOLS[..0]) == 0
    ensures TotalWeight(SYMBOLS[..1]) == 120
    ensures TotalWeight(SYMBOLS[..2]) == 240
    ensures TotalWeight(SYMBOLS[..3]) == 330
    ensures TotalWeight(SYMBOLS[..4]) == 390
    ensures TotalWeight(SYMBOLS[..5]) == 420
    ensures TotalWeight(SYMBOLS) == 429
  {
    assert SYMBOLS[..1][..0] == SYMBOLS[..0];
    assert SYMBOLS[..2][..1] == SYMBOLS[..1];
    assert SYMBOLS[..3][..2] == SYMBOLS[..2];
    assert SYMBOLS[..4][..3] == SYMBOLS[..3];
    assert SYMBOLS[..5][..4] == SYMBOLS[..4];
    assert SYMBOLS[..5] == SYMBOLS[..|SYMBOLS| - 1];
  }

  /** The catalogue's bag has 429 entries, each symbol occurs exactly `weight`
      times, and position `i` holds the symbol whose cumulative-weight range
      contains `i`. */
  lemma CatalogueBag()
    ensures |BAG| == 429
    ensures forall s: Symbol :: multiset(BAG)[s] == s.Weight()
    ensures forall i :: 0 <= i < |BAG| ==> BAG[i] == CumulativeLookup(i)
  {
    CatalogueOffsets();
    ExpandLength(SYMBOLS);
    forall s: Symbol
      ensures multiset(BAG)[s] == s.Weight()
    {
      ExpandCount(SYMBOLS, s);
      CatalogueWellFormed(s);
    }
    forall i | 0 <= i < |BAG|
      ensures BAG[i] == CumulativeLookup(i)
    {
      CatalogueBagAt(i);
    }
  }

  lemma CatalogueBagAt(i: nat)
    requires i < TotalWeight(SYMBOLS)
    ensures i < |BAG| && BAG[i] == CumulativeLookup(i)
  {
    CatalogueOffsets();
    if i < 120 { BagAt(SYMBOLS, 0, i); }
    else if i < 240 { BagAt(SYMBOLS, 1, i); }
    else if i < 330 { BagAt(SYMBOLS, 2, i); }
    else if i < 390 { BagAt(SYMBOLS, 3, i); }
    else if i < 420 { BagAt(SYMBOLS, 4, i); }
    else { BagAt(SYMBOLS, 5, i); }
  }

  /** A position inside the block of entry `k` holds that entry. */
  lemma BagAt(t: seq<Symbol>, k: nat, i: nat)
    requires k < |t|
    requires TotalWeight(t[..k]) <= i < TotalWeight(t[..k]) + t[k].Weight()
    ensures i < |Expand(t)| && Expand(t)[i] == t[k]
  {
    BagBlock(t, k);
    var off := TotalWeight(t[..k]);
    var block := Expand(t)[off..off + t[k].Weight()];
    assert block[i - off] == t[k];
  }

  /** A position drawn from `Math.floor(u * n)` with `u` in [0, 1). */
  function RandomIndex(u: real, n: nat): (i: nat)
    requires 0.0 <= u < 1.0 && n > 0
    ensures i < n
    ensures i as real <= u * n as real < i as real + 1.0
  {
    assert u * n as real < n as real by {
      assert (1.0 - u) * n as real > 0.0;
    }
    (u * n as real).Floor
  }

  /** Every position is drawn by exactly the values of `u` in an interval of
      width 1/n, so the positions are equally likely. */
  lemma RandomIndexInterval(u: real, n: nat, i: nat)
    requires 0.0 <= u < 1.0 && n > 0
    ensures RandomIndex(u, n) == i <==> i as real / n as real <= u < (i + 1) as real / n as real
  {
    DivLe(i as real, n as real, u);
    DivLe((i + 1) as real, n as real, u);
  }

  lemma DivLe(a: real, N: real, u: real)
    requires N > 0.0
    ensures a / N <= u <==> a <= u * N
  {
    assert a == (a / N) * N;
    if a / N <= u {
      assert (a / N) * N <= u * N;
    }
    if a <= u * N {
      assert a / N <= (u * N) / N;
    }
  }

  /** Three independent draws from the bag, one per reel. */
  datatype Uniforms = Uniforms(u0: real, u1: real, u2: real) {
    predicate Valid() {
      0.0 <= u0 < 1.0 && 0.0 <= u1 < 1.0 && 0.0 <= u2 < 1.0
    }
  }

  /** One symbol drawn from the bag. */
  function Pick(bag: seq<Symbol>, u: real): (s: Symbol)
    requires |bag| > 0 && 0.0 <= u < 1.0
    ensures s in bag
  {
    bag[RandomIndex(u, |bag|)]
  }

  /** A three-reel draw from the bag. */
  function SpinOnce(bag: seq<Symbol>, r: Uniforms): (d: Draw)
    requires |bag| > 0 && r.Valid()
    ensures d.a in bag && d.b in bag && d.c in bag
  {
    Draw(Pick(bag, r.u0), Pick(bag, r.u1), Pick(bag, r.u2))
  }

  /** Where the block of `s` starts in the catalogue's bag: the total weight
      of the entries listed before it. */
  function Offset(s: Symbol): nat
  {
    match s
    case Cherry => 0
    case Lemon => 120
    case Bell => 240
    case Clover => 330
    case Diamond => 390
    case Seven => 420
  }

  /** A value `u` of `Math.random()` draws `s` from the catalogue's bag exactly
      when `u * 429` falls in the block of `s`, an interval of width
      `s.Weight()`: each symbol is drawn with probability weight / 429. */
  lemma PickInterval(u: real, s: Symbol)
    requires 0.0 <= u < 1.0
    ensures |BAG| == 429
    ensures Pick(BAG, u) == s <==> Offset(s) as real <= u * 429.0 < (Offset(s) + s.Weight()) as real
  {
    CatalogueBag();
    var i := RandomIndex(u, 429);
    assert BAG[i] == CumulativeLookup(i);
  }

  /** Each reel of a draw from the catalogue's bag shows `s` exactly when its
      own uniform value falls in the block of `s`, independently of the others. */
  lemma SpinOnceIntervals(r: Uniforms, s: Symbol)
    requires r.Valid()
    ensures |BAG| == 429
    ensures SpinOnce(BAG, r).a == s <==> Offset(s) as real <= r.u0 * 429.0 < (Offset(s) + s.Weight()) as real
    ensures SpinOnce(BAG, r).b == s <==> Offset(s) as real <= r.u1 * 429.0 < (Offset(s) + s.Weight()) as real
    ensures SpinOnce(BAG, r).c == s <==> Offset(s) as real <= r.u2 * 429.0 < (Offset(s) + s.Weight()) as real
  {
    PickInterval(r.u0, s);
    PickInterval(r.u1, s);
    PickInterval(r.u2, s);
  }

  /** A draw from the catalogue's bag hits the jackpot exactly when each of
      its three positions falls in the last nine, 420 to 428. */
  lemma JackpotPositions(r: Uniforms)
    requires r.Valid()
    ensures |BAG| == 429
    ensures SpinOnce(BAG, r).IsJackpot() <==>
              420 <= RandomIndex(r.u0, 429) && 420 <= RandomIndex(r.u1, 429)
              && 420 <= RandomIndex(r.u2, 429)
  {
    CatalogueBag();
  }
}
