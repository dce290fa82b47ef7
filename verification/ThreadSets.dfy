/** Unsigned 64-bit words and the bitwise operations the scheduler uses on them. A word is the
    number it denotes; each bitwise operation is given by what it does to the lowest bit. */
module Words {
  const WORD_BITS: nat := 64
  const U64_MAX: nat := 0xFFFF_FFFF_FFFF_FFFF

  function Pow2(k: nat): (r: nat)
    ensures r >= 1
  {
    if k == 0 then 1 else 2 * Pow2(k - 1)
  }

  /** Bit `t` of `x`. */
  predicate Bit(x: nat, t: nat)
    decreases t
  {
    if t == 0 then x % 2 == 1 else Bit(x / 2, t - 1)
  }

  function BitAnd(x: nat, y: nat): (r: nat)
    ensures r <= x && r <= y
  {
    if x == 0 || y == 0 then 0 else (if x % 2 == 1 && y % 2 == 1 then 1 else 0) + 2 * BitAnd(x / 2, y / 2)
  }

  function BitOr(x: nat, y: nat): nat {
    if x == 0 then y else if y == 0 then x
    else (if x % 2 == 1 || y % 2 == 1 then 1 else 0) + 2 * BitOr(x / 2, y / 2)
  }

  function BitNot(x: nat): nat
    requires x <= U64_MAX
  {
    U64_MAX - x
  }

  lemma {:induction false} AndBits(x: nat, y: nat, t: nat)
    ensures Bit(BitAnd(x, y), t) <==> Bit(x, t) && Bit(y, t)
    decreases t
  {
    if x == 0 || y == 0 {
      ZeroBits(t);
    } else if t > 0 {
      AndBits(x / 2, y / 2, t - 1);
    }
  }

  lemma {:induction false} OrBits(x: nat, y: nat, t: nat)
    ensures Bit(BitOr(x, y), t) <==> Bit(x, t) || Bit(y, t)
    decreases t
  {
    if x == 0 || y == 0 {
      ZeroBits(t);
    } else if t > 0 {
      OrBits(x / 2, y / 2, t - 1);
    }
  }

  lemma {:induction false} NotBits(x: nat, w: nat, t: nat)
    requires x < Pow2(w) && t < w
    ensures Bit(Pow2(w) - 1 - x, t) <==> !Bit(x, t)
    decreases t
  {
    if t > 0 {
      HalfComplement(Pow2(w - 1), x);
      NotBits(x / 2, w - 1, t - 1);
    } else {
      HalfComplement(Pow2(w - 1), x);
    }
  }

  lemma HalfComplement(q: nat, x: nat)
    requires x < 2 * q
    ensures (2 * q - 1 - x) / 2 == q - 1 - x / 2 && (2 * q - 1 - x) % 2 == 1 - x % 2
  {
    var half, low := x / 2, x % 2;
    assert 2 * q - 1 - x == 2 * (q - 1 - half) + (1 - low);
  }

  lemma {:induction false} ZeroBits(t: nat)
    ensures !Bit(0, t)
  {
    if t > 0 { ZeroBits(t - 1); }
  }

  lemma {:induction false} FlagBits(k: nat, t: nat)
    ensures Bit(Pow2(k), t) <==> t == k
    decreases k
  {
    if k == 0 {
      if t > 0 { ZeroBits(t - 1); }
    } else if t > 0 {
      FlagBits(k - 1, t - 1);
    }
  }

  /** The lowest `k` bits and no others are set in `2^k - 1`. */
  lemma {:induction false} MaskBits(k: nat, t: nat)
    ensures Bit(Pow2(k) - 1, t) <==> t < k
    decreases k
  {
    if k == 0 {
      ZeroBits(t);
    } else if t > 0 {
      assert (Pow2(k) - 1) / 2 == Pow2(k - 1) - 1;
      MaskBits(k - 1, t - 1);
    }
  }

  lemma {:induction false} AndFlag(x: nat, k: nat)
    ensures BitAnd(x, Pow2(k)) != 0 <==> Bit(x, k)
    decreases k
  {
    if k == 0 {
      assert BitAnd(x / 2, 0) == 0;
    } else {
      AndFlag(x / 2, k - 1);
      if x == 0 { ZeroBits(k); }
    }
  }

  lemma {:induction false} OrBelow(x: nat, y: nat, w: nat)
    requires x < Pow2(w) && y < Pow2(w)
    ensures BitOr(x, y) < Pow2(w)
    decreases w
  {
    if x != 0 && y != 0 { OrBelow(x / 2, y / 2, w - 1); }
  }

  lemma {:induction false} NoBitIsZero(x: nat, w: nat)
    requires x < Pow2(w)
    requires forall t: nat :: t < w ==> !Bit(x, t)
    ensures x == 0
    decreases w
  {
    if w > 0 {
      assert !Bit(x, 0);
      var half := x / 2;
      forall t: nat | t < w - 1 ensures !Bit(half, t) { assert !Bit(x, t + 1); }
      NoBitIsZero(half, w - 1);
    }
  }

  lemma {:induction false} PowOrder(k: nat, w: nat)
    requires k < w
    ensures Pow2(k) < Pow2(w)
  {
    if k < w - 1 { PowOrder(k, w - 1); }
  }

  lemma WordSize()
    ensures Pow2(WORD_BITS) - 1 == U64_MAX
  {
    assert Pow2(8) == 0x100;
    assert Pow2(16) == 0x1_0000;
    assert Pow2(24) == 0x100_0000;
    assert Pow2(32) == 0x1_0000_0000;
    assert Pow2(40) == 0x100_0000_0000;
    assert Pow2(48) == 0x1_0000_0000_0000;
    assert Pow2(56) == 0x100_0000_0000_0000;
  }
}

/** The scheduler's `ThreadSet`: a set of worker threads packed into one 64-bit word.
    Every operation is shown to be the corresponding operation on finite sets of 0..63. */
module ThreadSets {
  import opened Basics
  import opened Words

  const MAX_THREADS: nat := WORD_BITS

  /** The threads 0..n-1. */
  ghost function Below(n: nat): (s: set<nat>)
    ensures forall t: nat :: t in s <==> t < n
  {
    if n == 0 then {} else Below(n - 1) + {n - 1}
  }

  /** `0b1 << thread_id`. */
  function AsFlag(t: nat): nat
    requires t < MAX_THREADS
  {
    Pow2(t)
  }

  datatype RawThreadSet = ThreadSet(bits: nat) {
    ghost predicate IsWord() {
      bits < Pow2(WORD_BITS)
    }

    /** The finite set this word stands for. */
    ghost function Threads(): (s: set<nat>)
    {
      set t: nat | t in Below(MAX_THREADS) && Bit(bits, t)
    }

    predicate Contains(t: nat)
      requires t < MAX_THREADS
      ensures Contains(t) <==> t in Threads()
    {
      AndFlag(bits, t);
      BitAnd(bits, AsFlag(t)) != 0
    }

    predicate IsEmpty()
      requires IsWord()
      ensures IsEmpty() <==> Threads() == {}
    {
      assert bits == 0 <==> Threads() == {} by {
        if Threads() == {} {
          forall t: nat | t < MAX_THREADS ensures !Bit(bits, t) { assert t !in Threads(); }
          NoBitIsZero(bits, MAX_THREADS);
        } else {
          var t :| t in Threads();
          ZeroBits(t);
        }
      }
      this == NoThreads()
    }

    static function NoThreads(): (r: ThreadSet)
      ensures r.Threads() == {}
    {
      assert forall t: nat :: !Bit(0, t) by {
        forall t: nat ensures !Bit(0, t) { ZeroBits(t); }
      }
      ThreadSet(0)
    }

    /** All of 0..n-1; a full word has no flag above it to subtract one from. */
    static function Any(n: nat): (r: ThreadSet)
      requires n <= MAX_THREADS
      ensures r.Threads() == Below(n)
    {
      WordSize();
      var r := ThreadSet(if n == MAX_THREADS then U64_MAX else AsFlag(n) - 1);
      assert r.Threads() == Below(n) && r.IsWord() by {
        forall t: nat ensures Bit(r.bits, t) <==> t < n { MaskBits(n, t); }
        if n < MAX_THREADS { PowOrder(n, MAX_THREADS); }
      }
      r
    }

    static function Only(t: nat): (r: ThreadSet)
      requires t < MAX_THREADS
      ensures r.Threads() == {t}
    {
      PowOrder(t, MAX_THREADS);
      var r := ThreadSet(AsFlag(t));
      assert r.Threads() == {t} by {
        forall u: nat ensures Bit(r.bits, u) <==> u == t { FlagBits(t, u); }
      }
      r
    }

    function And(other: ThreadSet): (r: ThreadSet)
      requires IsWord()
      ensures r.Threads() == Threads() * other.Threads()
    {
      var r := ThreadSet(BitAnd(bits, other.bits));
      assert r.Threads() == Threads() * other.Threads() by {
        forall t: nat ensures Bit(r.bits, t) <==> Bit(bits, t) && Bit(other.bits, t) {
          AndBits(bits, other.bits, t);
        }
      }
      r
    }

    function Minus(other: ThreadSet): (r: ThreadSet)
      requires IsWord()
      ensures r.Threads() == Threads() - other.Threads()
    {
      WordSize();
      var r := ThreadSet(BitAnd(bits, BitNot(other.bits)));
      assert r.Threads() == Threads() - other.Threads() by {
        forall t: nat | t < MAX_THREADS ensures Bit(r.bits, t) <==> Bit(bits, t) && !Bit(other.bits, t) {
          NotBits(other.bits, MAX_THREADS, t);
          AndBits(bits, BitNot(other.bits), t);
        }
      }
      r
    }

    function Insert(t: nat): (r: ThreadSet)
      requires IsWord() && t < MAX_THREADS
      ensures r.Threads() == Threads() + {t}
    {
      PowOrder(t, MAX_THREADS);
      OrBelow(bits, AsFlag(t), MAX_THREADS);
      var r := ThreadSet(BitOr(bits, AsFlag(t)));
      assert r.Threads() == Threads() + {t} by {
        forall u: nat ensures Bit(r.bits, u) <==> Bit(bits, u) || u == t {
          OrBits(bits, AsFlag(t), u);
          FlagBits(t, u);
        }
      }
      r
    }

    function Remove(t: nat): (r: ThreadSet)
      requires IsWord() && t < MAX_THREADS
      ensures r.Threads() == Threads() - {t}
    {
      Minus(Only(t))
    }

    /** `count_ones`, counted over the lowest `n` bits. */
    function CountOnes(n: nat): (r: nat)
      requires n <= MAX_THREADS
      ensures r == |Threads() * Below(n)|
    {
      if n == 0 then 0 else
        BelowNext(Threads(), n - 1);
        CountOnes(n - 1) + if Contains(n - 1) then 1 else 0
    }

    /** `trailing_zeros`, looking at bits `from` and up. */
    function TrailingZeros(from: nat): (r: nat)
      requires from <= MAX_THREADS
      ensures from <= r <= MAX_THREADS
      ensures forall u: nat :: from <= u < r ==> u !in Threads()
      ensures r < MAX_THREADS ==> r in Threads()
      decreases MAX_THREADS - from
    {
      if from == MAX_THREADS || Contains(from) then from else TrailingZeros(from + 1)
    }

    /** `Some(t)` when the population count is one, `t` being the number of trailing zeros. */
    function OnlyOneContained(): (r: Option<nat>)
      ensures r.Some? ==> Threads() == {r.value}
      ensures r.None? ==> forall t: nat :: Threads() != {t}
    {
      assert Threads() * Below(MAX_THREADS) == Threads();
      if CountOnes(MAX_THREADS) == 1 then
        LoneElement(Threads(), TrailingZeros(0));
        Some(TrailingZeros(0))
      else
        None
    }
  }

  lemma BelowNext(s: set<nat>, n: nat)
    ensures |s * Below(n + 1)| == |s * Below(n)| + if n in s then 1 else 0
  {
    var low := s * Below(n);
    assert s * Below(n + 1) == if n in s then low + {n} else low;
  }

  type ThreadSet = s: RawThreadSet | s.IsWord() witness ThreadSet(0)

  lemma LoneElement(s: set<nat>, least: nat)
    requires |s| == 1
    requires forall u :: u in s ==> u < MAX_THREADS
    requires least <= MAX_THREADS && (least < MAX_THREADS ==> least in s)
    requires forall u: nat :: u < least ==> u !in s
    ensures s == {least}
  {
    var u :| u in s;
    assert |s - {u}| == 0;
    assert s == {u};
  }
}
