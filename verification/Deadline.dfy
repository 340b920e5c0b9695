/** The absolute deadline of include/Message/PosixMessageQueue.hpp: current time plus milliseconds. */
module Deadlines {

  const GIGA: int := 1_000_000_000
  const INT64_MIN: int := -0x8000_0000_0000_0000
  const INT64_MAX: int := 0x7fff_ffff_ffff_ffff

  predicate Fits(x: int) {
    INT64_MIN <= x <= INT64_MAX
  }

  /** C++ division truncates toward zero. */
  function Quot(a: int, b: int): int
    requires b > 0
  {
    if a >= 0 then a / b else -((-a) / b)
  }

  function Rem(a: int, b: int): int
    requires b > 0
  {
    a - b * Quot(a, b)
  }

  datatype Timespec = Timespec(sec: int, nsec: int) {
    predicate Normalised() {
      0 <= nsec < GIGA
    }

    function Nanos(): int {
      sec * GIGA + nsec
    }
  }

  /** The fields as the source computes them, one assignment after the other. */
  function Deadline(now: Timespec, ms: int): Timespec {
    var nsec := now.nsec + Rem(ms * 1_000_000, GIGA);
    var sec := now.sec + (Quot(ms, 1000) + Quot(nsec, GIGA));
    Timespec(sec, Rem(nsec, GIGA))
  }

  /** Whole seconds and left-over nanoseconds of the same duration. */
  lemma SplitMillis(ms: int)
    ensures Quot(ms, 1000) * GIGA + Rem(ms * 1_000_000, GIGA) == ms * 1_000_000
    ensures ms >= 0 ==> 0 <= Rem(ms * 1_000_000, GIGA) < GIGA
    ensures ms <= 0 ==> -GIGA < Rem(ms * 1_000_000, GIGA) <= 0
  {
    if ms >= 0 {
      SplitMagnitude(ms);
    } else {
      SplitMagnitude(-ms);
      assert -(ms * 1_000_000) == -ms * 1_000_000;
    }
  }

  lemma SplitMagnitude(n: nat)
    ensures n * 1_000_000 / GIGA == n / 1000
    ensures n / 1000 * GIGA <= n * 1_000_000 < n / 1000 * GIGA + GIGA
  {
    var q, r := n / 1000, n % 1000;
    assert n == 1000 * q + r;
    assert n * 1_000_000 == q * GIGA + r * 1_000_000;
    assert 0 <= r * 1_000_000 < GIGA;
  }

  /** The deadline is exactly now plus ms, to the nanosecond, for every ms; and it is normalised
      exactly when borrowing is not needed - always for ms >= 0, but for a negative ms only if the
      current nanoseconds cover what is left of it after whole seconds. */
  lemma DeadlineIsExact(now: Timespec, ms: int)
    requires now.Normalised()
    ensures Deadline(now, ms).Nanos() == now.Nanos() + ms * 1_000_000
    ensures Deadline(now, ms).Normalised() <==> ms >= 0 || -ms % 1000 * 1_000_000 <= now.nsec
  {
    SplitMillis(ms);
    if ms < 0 {
      SplitMagnitude(-ms);
      assert -ms == 1000 * (-ms / 1000) + -ms % 1000;
      assert Rem(ms * 1_000_000, GIGA) == -(-ms % 1000 * 1_000_000);
    }
  }

  /** A negative timeout that yields a deadline the system call refuses. */
  lemma NegativeTimeoutExample()
    ensures Deadline(Timespec(5, 0), -1) == Timespec(5, -1_000_000)
    ensures !Deadline(Timespec(5, 0), -1).Normalised()
  {
  }

  ghost predicate Before(a: Timespec, b: Timespec) {
    a.sec < b.sec || (a.sec == b.sec && a.nsec <= b.nsec)
  }

  lemma {:induction false} OrderIsNanos(a: Timespec, b: Timespec)
    requires a.Normalised() && b.Normalised()
    ensures Before(a, b) <==> a.Nanos() <= b.Nanos()
  {
    if a.sec < b.sec {
      assert (b.sec - a.sec) * GIGA >= GIGA;
    } else if b.sec < a.sec {
      assert (a.sec - b.sec) * GIGA >= GIGA;
    }
  }

  /** Later now or longer timeout, later deadline - compared as the system compares timespecs. */
  lemma DeadlineIsMonotone(now1: Timespec, now2: Timespec, ms1: nat, ms2: nat)
    requires now1.Normalised() && now2.Normalised()
    requires Before(now1, now2) && ms1 <= ms2
    ensures Before(Deadline(now1, ms1), Deadline(now2, ms2))
  {
    DeadlineIsExact(now1, ms1);
    DeadlineIsExact(now2, ms2);
    OrderIsNanos(now1, now2);
    OrderIsNanos(Deadline(now1, ms1), Deadline(now2, ms2));
  }

  /** The method, with every intermediate 64-bit value checked. */
  method ToAbsTimespec(now: Timespec, ms: int) returns (ts: Timespec)
    requires now.Normalised() && 0 <= ms && Fits(now.sec)
    requires Fits(ms * 1_000_000) && Fits(Deadline(now, ms).sec)
    ensures ts.Normalised() && Fits(ts.sec)
    ensures ts.Nanos() == now.Nanos() + ms * 1_000_000
    ensures ts == Deadline(now, ms)
  {
    SplitMillis(ms);
    DeadlineIsExact(now, ms);
    var extra := ms * 1_000_000;
    assert Fits(extra);
    var nsec := now.nsec + Rem(extra, GIGA);
    assert Fits(nsec);
    var carry := Quot(nsec, GIGA);
    assert 0 <= carry <= 1;
    assert Fits(Quot(ms, 1000) + carry);
    var sec := now.sec + (Quot(ms, 1000) + carry);
    assert Fits(sec);
    ts := Timespec(sec, Rem(nsec, GIGA));
  }
}
