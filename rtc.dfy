/** The real-time clock driver.  The RTC interrupts at 512 Hz and the
    handler counts the interrupts in a 32-bit counter.  Each terminal
    keeps a rate bit b (0..8) and an interrupt flag: the flag is raised
    whenever bit b of the counter changes, that is once every 2^b
    interrupts, so a terminal with bit b sees 512 / 2^b Hz.  Programming
    the chip and the read's wait for the flag are not part of this
    model. */
module Rtc {
  import opened Paging
  import opened Terminal

  /** The frequency, in Hz, that rate bit `b` gives. */
  function RateOfBit(b: nat): (f: bv32)
    requires b <= DEFAULT_FREQ_BIT
    ensures 2 <= f <= 512
  {
    [512, 256, 128, 64, 32, 16, 8, 4, 2][b]
  }

  /** The mask 1 << b of CHECK_FLAG, for the bits a terminal can use. */
  function BitMask(b: nat): (m: bv32)
    requires b <= DEFAULT_FREQ_BIT
    ensures m * RateOfBit(b) == 512
  {
    [1, 2, 4, 8, 16, 32, 64, 128, 256][b]
  }

  /** The bits below bit `b`. */
  function LowMask(b: nat): bv32
    requires b <= DEFAULT_FREQ_BIT
  {
    [0, 1, 3, 7, 15, 31, 63, 127, 255][b]
  }

  /** The handler's test: bit `b` differs between the counter and the
      counter plus one (in 32-bit arithmetic). */
  predicate Flips(c: bv32, b: nat)
    requires b <= DEFAULT_FREQ_BIT
  {
    c & BitMask(b) != (c + 1) & BitMask(b)
  }

  /** Adding one flips bit k of a 32-bit word exactly when it carries out
      of every bit below k. */
  lemma CarryFlips(c: bv32, m: bv32)
    requires m == 1 || m == 2 || m == 4 || m == 8 || m == 16 || m == 32 || m == 64 ||
             m == 128 || m == 256
    ensures c & m != (c + 1) & m <==> (c + 1) & (m - 1) == 0
  {
  }

  /** The flag of a terminal with rate bit `b` is raised exactly on the
      ticks that take the counter to a multiple of 2^b, wrap-around
      included: once every 512 / RateOfBit(b) ticks. */
  lemma FlipsOnMultiples(c: bv32, b: nat)
    requires b <= DEFAULT_FREQ_BIT
    ensures Flips(c, b) <==> (c + 1) & LowMask(b) == 0
  {
    MaskIsPowerOfTwo(b);
    CarryFlips(c, BitMask(b));
  }

  /** 1 << b is a power of two and the bits below it are 1 << b minus
      one. */
  lemma MaskIsPowerOfTwo(b: nat)
    requires b <= DEFAULT_FREQ_BIT
    ensures var m := BitMask(b);
      LowMask(b) == m - 1 &&
      (m == 1 || m == 2 || m == 4 || m == 8 || m == 16 || m == 32 || m == 64 || m == 128 || m == 256)
  {
    assert b == 0 || b == 1 || b == 2 || b == 3 || b == 4 || b == 5 || b == 6 || b == 7 || b == 8;
  }

  /** The frequencies rtc_write accepts. */
  predicate ValidRate(f: bv32) {
    exists b :: 0 <= b <= DEFAULT_FREQ_BIT && RateOfBit(b) == f
  }

  /** rtc_write's guard: a power of two between 2 and 512. */
  predicate PassesGuard(f: bv32) {
    f & (f - 1) == 0 && 2 <= f && f <= 512
  }

  lemma GuardAcceptsRates(f: bv32)
    ensures PassesGuard(f) <==> ValidRate(f)
  {
    if PassesGuard(f) {
      assert f == 2 || f == 4 || f == 8 || f == 16 || f == 32 || f == 64 ||
             f == 128 || f == 256 || f == 512;
      if f == 512 { assert RateOfBit(0) == f; }
      else if f == 256 { assert RateOfBit(1) == f; }
      else if f == 128 { assert RateOfBit(2) == f; }
      else if f == 64 { assert RateOfBit(3) == f; }
      else if f == 32 { assert RateOfBit(4) == f; }
      else if f == 16 { assert RateOfBit(5) == f; }
      else if f == 8 { assert RateOfBit(6) == f; }
      else if f == 4 { assert RateOfBit(7) == f; }
      else { assert RateOfBit(8) == f; }
    }
    if ValidRate(f) {
      var b :| 0 <= b <= DEFAULT_FREQ_BIT && RateOfBit(b) == f;
      assert b == 0 || b == 1 || b == 2 || b == 3 || b == 4 || b == 5 || b == 6 || b == 7 || b == 8;
    }
  }

  /** Halving a rate gives the rate of the next bit. */
  lemma HalveRate(j: nat)
    requires j < DEFAULT_FREQ_BIT
    ensures RateOfBit(j) >> 1 == RateOfBit(j + 1)
  {
  }

  /** rtc_write's loop: from a valid rate, the bit that gives it. */
  method FreqBit(freq: bv32) returns (bit: nat)
    requires ValidRate(freq)
    ensures bit <= DEFAULT_FREQ_BIT && RateOfBit(bit) == freq
  {
    ghost var k :| 0 <= k <= DEFAULT_FREQ_BIT && RateOfBit(k) == freq;
    var f := freq;
    bit := 8;
    while f != 2
      invariant k <= bit <= DEFAULT_FREQ_BIT
      invariant f == RateOfBit(k + DEFAULT_FREQ_BIT - bit)
      decreases bit
    {
      HalveRate(k + DEFAULT_FREQ_BIT - bit);
      f := f >> 1;
      bit := bit - 1;
    }
  }

  /** rtc_close: nothing to release. */
  function RtcClose(fd: int): (r: int)
    ensures r == 0
  {
    0
  }

  /** rtc_write: set the active terminal's rate to `freq` Hz when it is a
      power of two from 2 to 512; -1 and no change otherwise. */
  method RtcWrite(con: Console, freq: bv32) returns (r: int)
    requires con.Valid()
    modifies con
    ensures con.Valid()
    ensures r == 0 || r == -1
    ensures r == 0 <==> ValidRate(freq)
    ensures r == 0 ==>
      con.terms == old(con.terms)[con.taIdx := old(con.terms[con.taIdx]).(
        rtcFreqBit := con.terms[con.taIdx].rtcFreqBit)] &&
      RateOfBit(con.terms[con.taIdx].rtcFreqBit) == freq
    ensures r == -1 ==> con.terms == old(con.terms)
    ensures unchanged(con`taIdx, con`tsIdx, con`screenX, con`screenY, con`cursorX, con`cursorY)
    ensures unchanged(con`vidPointer, con`vmem, con`output)
  {
    GuardAcceptsRates(freq);
    if !(freq & (freq - 1) == 0 && 2 <= freq && freq <= 512) {
      return -1;
    }
    var bit := FreqBit(freq);
    con.terms := con.terms[con.taIdx := con.terms[con.taIdx].(rtcFreqBit := bit)];
    r := 0;
  }

  /** rtc_open: the active terminal goes back to 2 Hz. */
  method RtcOpen(con: Console) returns (r: int)
    requires con.Valid()
    modifies con
    ensures con.Valid() && r == 0
    ensures con.terms == old(con.terms)[con.taIdx := old(con.terms[con.taIdx]).(
      rtcFreqBit := DEFAULT_FREQ_BIT)]
    ensures RateOfBit(con.terms[con.taIdx].rtcFreqBit) == 2
    ensures unchanged(con`taIdx, con`tsIdx, con`screenX, con`screenY, con`cursorX, con`cursorY)
    ensures unchanged(con`vidPointer, con`vmem, con`output)
  {
    con.terms := con.terms[con.taIdx := con.terms[con.taIdx].(rtcFreqBit := DEFAULT_FREQ_BIT)];
    r := 0;
  }

  /** rtc_read, up to its wait: lower the active terminal's flag. */
  method RtcRead(con: Console) returns (r: int)
    requires con.Valid()
    modifies con
    ensures con.Valid() && r == 0
    ensures con.terms == old(con.terms)[con.taIdx := old(con.terms[con.taIdx]).(rtcFlag := false)]
    ensures unchanged(con`taIdx, con`tsIdx, con`screenX, con`screenY, con`cursorX, con`cursorY)
    ensures unchanged(con`vidPointer, con`vmem, con`output)
  {
    con.terms := con.terms[con.taIdx := con.terms[con.taIdx].(rtcFlag := false)];
    r := 0;
  }

  /** A terminal after one interrupt at counter value `c`. */
  function Ticked(t: TermRec, c: bv32): (r: TermRec)
    requires TermOk(t)
    ensures TermOk(r)
    ensures r.rtcFlag <==> t.rtcFlag || (c + 1) & LowMask(t.rtcFreqBit) == 0
    ensures r == t.(rtcFlag := r.rtcFlag)
  {
    FlipsOnMultiples(c, t.rtcFreqBit);
    t.(rtcFlag := t.rtcFlag || Flips(c, t.rtcFreqBit))
  }

  class RtcClock {
    /** rtc_counter: interrupts seen since init_RTC. */
    var counter: bv32

    /** init_RTC's state part: no interrupt yet. */
    constructor ()
      ensures counter == 0
    {
      counter := 0;
    }

    /** RTC_Handler: raise the flag of every terminal whose rate bit
        flips on this tick, then count the tick. */
    method Tick(con: Console)
      requires con.Valid()
      modifies this, con
      ensures con.Valid()
      ensures counter == old(counter) + 1
      ensures |con.terms| == MAX_TERMINALS
      ensures forall i :: 0 <= i < MAX_TERMINALS ==> con.terms[i] == Ticked(old(con.terms[i]), old(counter))
      ensures unchanged(con`taIdx, con`tsIdx, con`screenX, con`screenY, con`cursorX, con`cursorY)
      ensures unchanged(con`vidPointer, con`vmem, con`output)
    {
      var ts := con.terms;
      var i := 0;
      while i < MAX_TERMINALS
        invariant 0 <= i <= MAX_TERMINALS && TermsOk(ts)
        invariant forall p :: 0 <= p < i ==> ts[p] == Ticked(con.terms[p], counter)
        invariant forall p :: i <= p < MAX_TERMINALS ==> ts[p] == con.terms[p]
      {
        if Flips(counter, ts[i].rtcFreqBit) {
          ts := ts[i := ts[i].(rtcFlag := true)];
        }
        i := i + 1;
      }
      con.terms := ts;
      counter := counter + 1;
    }
  }
}
