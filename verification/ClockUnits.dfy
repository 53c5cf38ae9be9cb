/** Microseconds and ticks of the 16 ns clock, over exact rationals: a tick is 16 / 1000 us. */
module ClockUnits {
  import opened LaserStates

  /** The cast back to an integer drops the fraction. */
  function ConvToUs(clocks: nat): nat { clocks * 16 / 1000 }

  function ConvToClock(us: nat): nat { us * 1000 / 16 }

  /** The ticks fit a register up to a little more than 68.7 seconds. */
  lemma FitsExactlyUpToLongest(us: nat)
    ensures ConvToClock(us) < 4294967296 <==> us <= 68719476
  {
    assert us * 1000 == 16 * (us * 1000 / 16) + us * 1000 % 16;
  }

  /** There and back loses one microsecond, for odd numbers only. */
  lemma ThereAndBack(us: nat)
    ensures ConvToUs(ConvToClock(us)) == if us % 2 == 0 then us else us - 1
  {
    if us % 2 == 0 {
      assert us * 1000 == us / 2 * 2000 && ConvToClock(us) == us / 2 * 125;
    } else {
      assert us * 1000 == us / 2 * 2000 + 1000 && ConvToClock(us) == us / 2 * 125 + 62;
    }
  }

  lemma Monotone(a: nat, b: nat)
    requires a <= b
    ensures ConvToClock(a) <= ConvToClock(b) && ConvToUs(a) <= ConvToUs(b)
  {
    assert a * 1000 <= b * 1000 && a * 16 <= b * 16;
  }
}
