/**
 * The mulberry32 generator of the replay subsystem
 * (js/modules/game/ReplaySystem.js, `mulberry32`), on 32-bit words.
 * JavaScript's `| 0`, `>>> 0` and `Math.imul` all work modulo 2^32, which is
 * exactly `bv32` arithmetic.
 */
module Prng {

  /** The constant added to the state on every call. */
  const Increment: bv32 := 0x6D2B79F5

  const TwoTo32: int := 0x1_0000_0000

  /** `seed |= 0` on an integral number: its value modulo 2^32. */
  function ToWord(n: int): bv32
  {
    (n % TwoTo32) as bv32
  }

  /** The output mixing of one call, applied to the already advanced state. */
  function Mix(state: bv32): (w: bv32)
    ensures state == 0 ==> w == 0
  {
    var t1 := (state ^ (state >> 15)) * (1 | state);
    var t2 := (t1 + (t1 ^ (t1 >> 7)) * (61 | t1)) ^ t1;
    t2 ^ (t2 >> 14)
  }

  /** `(w >>> 0) / 4294967296`: an unsigned word scaled into [0, 1). */
  function ToUnit(w: bv32): (r: real)
    ensures 0.0 <= r < 1.0
  {
    w as int as real / TwoTo32 as real
  }

  /** The state after `n` calls from state `s`. */
  function Advanced(s: bv32, n: nat): bv32
    decreases n
  {
    if n == 0 then s else Advanced(s + Increment, n - 1)
  }

  /** The states a generator in state `s` passes through on its next `n` calls. */
  function States(s: bv32, n: nat): (r: seq<bv32>)
    ensures |r| == n
    decreases n
  {
    if n == 0 then [] else [s + Increment] + States(s + Increment, n - 1)
  }

  /** The `i`-th state of the stream is the state `i + 1` calls after the start. */
  lemma {:induction false} StatesAreAdvanced(s: bv32, n: nat, i: nat)
    requires i < n
    ensures States(s, n)[i] == Advanced(s, i + 1)
    decreases n
  {
    if i > 0 {
      StatesAreAdvanced(s + Increment, n - 1, i - 1);
    }
  }

  /**
   * A generator continues where another one would: the states of the first
   * `n + m` calls from `s` are those of the first `n` followed by those of
   * `m` calls from the state reached after `n`.
   */
  lemma {:induction false} StatesSplit(s: bv32, n: nat, m: nat)
    ensures States(s, n + m) == States(s, n) + States(Advanced(s, n), m)
    decreases n
  {
    if n > 0 {
      StatesSplit(s + Increment, n - 1, m);
    }
  }

  /** The closure returned by `mulberry32(seed)`; its captured `seed` is the field. */
  class Mulberry32 {
    var state: bv32

    constructor (seed: int)
      ensures state == ToWord(seed)
    {
      state := ToWord(seed);
    }

    /** One call of the generator. */
    method Next() returns (r: real)
      modifies this
      ensures state == old(state) + Increment
      ensures r == ToUnit(Mix(state))
      ensures 0.0 <= r < 1.0
    {
      state := state + Increment;
      r := ToUnit(Mix(state));
    }
  }
}
