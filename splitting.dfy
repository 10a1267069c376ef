/**
 * How AddGatherJob cuts the address range `[address, address + quantity)` of a
 * gather job into sub-requests no larger than the per-read maximum
 * (mb/mb.go:127-156), as a pure function with the properties the loop promises.
 */
module Splitting {
  import opened Base

  /** One sub-request's range: `quantity` items from `address` on. */
  datatype Chunk = Chunk(address: uint16, quantity: nat)

  /** The smaller of two numbers: the size of the next chunk is Min(remain, quantityMax). */
  function Min(a: int, b: int): int
  {
    if a <= b then a else b
  }

  /**
   * The chunks the split loop produces for `remain` items from `address` on:
   * each takes `quantityMax` items, or what remains when that is fewer, and the
   * next one starts where it ends, with the `uint16` address wrapping around.
   */
  function Split(address: uint16, remain: nat, quantityMax: nat): (r: seq<Chunk>)
    requires quantityMax > 0
    ensures r == [] <==> remain == 0
    ensures |r| <= remain
    decreases remain
  {
    if remain == 0 then []
    else
      var count := Min(remain, quantityMax);
      [Chunk(address, count)] + Split(AddU16(address, count), remain - count, quantityMax)
  }

  /** One turn of the split loop: the chunks still to come are the next chunk followed by the rest. */
  lemma SplitStep(done: seq<Chunk>, address: uint16, remain: nat, quantityMax: nat)
    requires quantityMax > 0 && remain > 0
    ensures var count := Min(remain, quantityMax);
      done + Split(address, remain, quantityMax)
      == (done + [Chunk(address, count)]) + Split(AddU16(address, count), remain - count, quantityMax)
  {
  }

  /** The number of items the chunks cover together. */
  function Total(cs: seq<Chunk>): nat
  {
    if cs == [] then 0 else cs[0].quantity + Total(cs[1..])
  }

  /** The chunks cover exactly the job's quantity. */
  lemma {:induction false} SplitTotal(address: uint16, remain: nat, quantityMax: nat)
    requires quantityMax > 0
    ensures Total(Split(address, remain, quantityMax)) == remain
    decreases remain
  {
    if remain > 0 {
      var count := Min(remain, quantityMax);
      var s := Split(address, remain, quantityMax);
      assert s[1..] == Split(AddU16(address, count), remain - count, quantityMax);
      SplitTotal(AddU16(address, count), remain - count, quantityMax);
    }
  }

  /**
   * No chunk is empty or larger than the maximum, every chunk but the last is
   * full, and there are no chunks exactly when there is nothing to read.
   */
  lemma {:induction false} SplitShape(address: uint16, remain: nat, quantityMax: nat)
    requires quantityMax > 0
    ensures var s := Split(address, remain, quantityMax);
      && (s == [] <==> remain == 0)
      && (forall k :: 0 <= k < |s| ==> 0 < s[k].quantity <= quantityMax)
      && (forall k :: 0 <= k < |s| - 1 ==> s[k].quantity == quantityMax)
    decreases remain
  {
    if remain > 0 {
      var count := Min(remain, quantityMax);
      var s := Split(address, remain, quantityMax);
      var rest := Split(AddU16(address, count), remain - count, quantityMax);
      assert s == [Chunk(address, count)] + rest;
      SplitShape(AddU16(address, count), remain - count, quantityMax);
      assert rest != [] ==> count == quantityMax;
      forall k | 0 <= k < |s|
        ensures 0 < s[k].quantity <= quantityMax
        ensures k < |s| - 1 ==> s[k].quantity == quantityMax
      {
        if k > 0 {
          assert s[k] == rest[k - 1];
        }
      }
    }
  }

  /**
   * The chunks are in address order and leave no gap: the first starts at the
   * job's address and each next one starts where the previous one ends,
   * modulo 2^16.
   */
  lemma {:induction false} SplitContiguous(address: uint16, remain: nat, quantityMax: nat)
    requires quantityMax > 0
    ensures var s := Split(address, remain, quantityMax);
      && (s != [] ==> s[0].address == address)
      && (forall k :: 0 <= k < |s| - 1 ==> s[k + 1].address == AddU16(s[k].address, s[k].quantity))
    decreases remain
  {
    if remain > 0 {
      var count := Min(remain, quantityMax);
      var s := Split(address, remain, quantityMax);
      var rest := Split(AddU16(address, count), remain - count, quantityMax);
      assert s == [Chunk(address, count)] + rest;
      SplitContiguous(AddU16(address, count), remain - count, quantityMax);
      forall k | 0 <= k < |s| - 1
        ensures s[k + 1].address == AddU16(s[k].address, s[k].quantity)
      {
        if k > 0 {
          assert s[k] == rest[k - 1] && s[k + 1] == rest[k];
        }
      }
    }
  }

  lemma ModAddLeft(x: nat, y: nat)
    ensures (x % 0x1_0000 + y) % 0x1_0000 == (x + y) % 0x1_0000
  {
    var q := x / 0x1_0000;
    assert x == q * 0x1_0000 + x % 0x1_0000;
  }

  /** `k * q` by repeated addition, as the split loop advances the address. */
  function Times(k: nat, q: nat): nat
  {
    if k == 0 then 0 else Times(k - 1, q) + q
  }

  lemma {:induction false} TimesIsProduct(k: nat, q: nat)
    ensures Times(k, q) == k * q
  {
    if k > 0 {
      TimesIsProduct(k - 1, q);
      assert k * q == (k - 1) * q + q;
    }
  }

  /**
   * Chunk k, in closed form: it starts k full chunks past the job's address
   * (modulo 2^16) and holds the maximum or whatever is left at that point.
   */
  lemma SplitAt(address: uint16, remain: nat, quantityMax: nat, k: nat)
    requires quantityMax > 0
    requires k < |Split(address, remain, quantityMax)|
    ensures k * quantityMax < remain
    ensures Split(address, remain, quantityMax)[k]
         == Chunk((address + k * quantityMax) % 0x1_0000, Min(quantityMax, remain - k * quantityMax))
  {
    TimesIsProduct(k, quantityMax);
    SplitAtOffset(address, remain, quantityMax, k);
  }

  /** SplitAt with the offset of chunk k computed by Times. */
  lemma {:induction false} SplitAtOffset(address: uint16, remain: nat, quantityMax: nat, k: nat)
    requires quantityMax > 0
    requires k < |Split(address, remain, quantityMax)|
    ensures Times(k, quantityMax) < remain
    ensures Split(address, remain, quantityMax)[k]
         == Chunk((address + Times(k, quantityMax)) % 0x1_0000, Min(quantityMax, remain - Times(k, quantityMax)))
    decreases remain
  {
    var count := Min(remain, quantityMax);
    var next := AddU16(address, count);
    var rest := Split(next, remain - count, quantityMax);
    assert Split(address, remain, quantityMax) == [Chunk(address, count)] + rest;
    if k > 0 {
      assert count == quantityMax;
      var previous := Times(k - 1, quantityMax);
      SplitAtOffset(next, remain - count, quantityMax, k - 1);
      assert rest[k - 1] == Chunk((next + previous) % 0x1_0000, Min(quantityMax, remain - count - previous));
      ModAddLeft(address + quantityMax, previous);
    }
  }

  /** A worked case: 300 registers at a register limit of 125 make three reads. */
  lemma ThreeRegisterReads(address: uint16)
    requires address <= 0x1_0000 - 300
    ensures Split(address, 300, 125)
         == [Chunk(address, 125), Chunk(address + 125, 125), Chunk(address + 250, 50)]
  {
  }
}
