/**
 * Identifier generation for history entries (IdGenerator in src/hooks/useHistory.ts).
 *
 * An id is the text `<timestamp>-<count>-<random>`: the clock reading in decimal, the value
 * of a process-wide counter in decimal, and a random suffix. The clock and the random
 * suffix are parameters here; the counter is the state of an `IdGenerator` object.
 */
module Ids {

  /** The decimal digit for `d`. */
  function DigitChar(d: nat): (c: char)
    requires d < 10
    ensures '0' <= c <= '9'
  {
    "0123456789"[d]
  }

  /** `n` written in decimal without leading zeros, as JavaScript renders a non-negative integer. */
  function Decimal(n: nat): (s: seq<char>)
    decreases n
  {
    if n < 10 then [DigitChar(n)] else Decimal(n / 10) + [DigitChar(n % 10)]
  }

  predicate IsDigits(s: seq<char>)
  {
    forall i :: 0 <= i < |s| ==> '0' <= s[i] <= '9'
  }

  lemma {:induction false} DecimalShape(n: nat)
    ensures |Decimal(n)| >= 1 && IsDigits(Decimal(n))
    ensures n >= 10 ==> |Decimal(n)| >= 2
    decreases n
  {
    if n >= 10 {
      DecimalShape(n / 10);
    }
  }

  lemma DigitCharInjective(a: nat, b: nat)
    requires a < 10 && b < 10 && DigitChar(a) == DigitChar(b)
    ensures a == b
  {
    assert "0123456789"[a] == "0123456789"[b];
  }

  /** Distinct numbers have distinct decimal renderings. */
  lemma {:induction false} DecimalInjective(a: nat, b: nat)
    requires Decimal(a) == Decimal(b)
    ensures a == b
    decreases a
  {
    DecimalShape(a);
    DecimalShape(b);
    if a < 10 && b < 10 {
      DigitCharInjective(a, b);
    } else if a >= 10 && b >= 10 {
      var da, db := Decimal(a), Decimal(b);
      assert da[|da| - 1] == DigitChar(a % 10);
      assert db[|db| - 1] == DigitChar(b % 10);
      DigitCharInjective(a % 10, b % 10);
      assert Decimal(a / 10) == da[..|da| - 1] == db[..|db| - 1] == Decimal(b / 10);
      DecimalInjective(a / 10, b / 10);
    }
  }

  /** The id `IdGenerator.generate` builds from the clock, the counter and the random suffix. */
  function FormatId(timestamp: nat, count: nat, random: string): string
  {
    Decimal(timestamp) + "-" + Decimal(count) + "-" + random
  }

  /** The position of the first dash in `s`, or `|s|` when there is none. */
  function FirstDash(s: string): (k: nat)
    ensures k <= |s|
  {
    if s == [] then 0 else if s[0] == '-' then 0 else 1 + FirstDash(s[1..])
  }

  lemma {:induction false} FirstDashAfterDigits(x: string, y: string)
    requires IsDigits(x)
    ensures FirstDash(x + "-" + y) == |x|
  {
    if x != [] {
      assert (x + "-" + y)[1..] == x[1..] + "-" + y;
      FirstDashAfterDigits(x[1..], y);
    }
  }

  /** Splitting `x + "-" + y` at its first dash recovers `x` when `x` has no dash. */
  lemma SplitAtDash(x: string, y: string, x': string, y': string)
    requires IsDigits(x) && IsDigits(x')
    requires x + "-" + y == x' + "-" + y'
    ensures x == x' && y == y'
  {
    var s := x + "-" + y;
    FirstDashAfterDigits(x, y);
    FirstDashAfterDigits(x', y');
    assert x == s[..|x|] == x';
    assert y == s[|x| + 1..] == y';
  }

  /** Ids that embed different counter values are different, whatever the clock and the random suffix. */
  lemma FormatIdSeparatesCounts(t1: nat, c1: nat, r1: string, t2: nat, c2: nat, r2: string)
    requires c1 != c2
    ensures FormatId(t1, c1, r1) != FormatId(t2, c2, r2)
  {
    if FormatId(t1, c1, r1) == FormatId(t2, c2, r2) {
      DecimalShape(t1);
      DecimalShape(t2);
      DecimalShape(c1);
      DecimalShape(c2);
      assert FormatId(t1, c1, r1) == Decimal(t1) + "-" + (Decimal(c1) + "-" + r1);
      assert FormatId(t2, c2, r2) == Decimal(t2) + "-" + (Decimal(c2) + "-" + r2);
      SplitAtDash(Decimal(t1), Decimal(c1) + "-" + r1, Decimal(t2), Decimal(c2) + "-" + r2);
      SplitAtDash(Decimal(c1), r1, Decimal(c2), r2);
      DecimalInjective(c1, c2);
    }
  }

  /** The inputs of one `generate` call that the model does not compute: the clock and the random text. */
  datatype Seed = Seed(timestamp: nat, random: string)

  /**
   * The process-wide id source. `counter` is the static counter of the source class; the ghost
   * `log` records, for every id handed out since the last reset, the clock and random suffix it used.
   */
  class IdGenerator {
    var counter: nat
    ghost var log: seq<Seed>

    ghost predicate Valid()
      reads this
    {
      |log| == counter
    }

    /** The id handed out by the `i`-th call since the last reset. */
    ghost function Issued(i: nat): string
      reads this
      requires i < |log|
    {
      FormatId(log[i].timestamp, i, log[i].random)
    }

    /** Every id handed out since the last reset. */
    ghost function IssuedIds(): set<string>
      reads this
    {
      set i | 0 <= i < |log| :: Issued(i)
    }

    /** The counter starts at zero when the program loads. */
    constructor ()
      ensures Valid() && counter == 0 && log == []
    {
      counter := 0;
      log := [];
    }

    /** `IdGenerator.generate`: builds an id from the current counter value and advances the counter. */
    method Generate(now: nat, random: string) returns (id: string)
      requires Valid()
      modifies this
      ensures Valid()
      ensures id == FormatId(now, old(counter), random)
      ensures counter == old(counter) + 1
      ensures log == old(log) + [Seed(now, random)]
      ensures id !in old(IssuedIds())
      ensures IssuedIds() == old(IssuedIds()) + {id}
    {
      id := FormatId(now, counter, random);
      forall i | 0 <= i < |log|
        ensures Issued(i) != id
      {
        FormatIdSeparatesCounts(log[i].timestamp, i, log[i].random, now, counter, random);
      }
      log := log + [Seed(now, random)];
      counter := counter + 1;
      assert Issued(|log| - 1) == id;
      assert forall i | 0 <= i < |log| - 1 :: Issued(i) == old(Issued(i));
    }

    /** `IdGenerator.reset`: the counter starts again from zero. */
    method Reset()
      modifies this
      ensures Valid() && counter == 0 && log == []
    {
      counter := 0;
      log := [];
    }
  }

  /** Two ids handed out between the same two resets are distinct. */
  lemma IssuedDistinct(log: seq<Seed>, i: nat, j: nat)
    requires i < |log| && j < |log| && i != j
    ensures FormatId(log[i].timestamp, i, log[i].random) != FormatId(log[j].timestamp, j, log[j].random)
  {
    FormatIdSeparatesCounts(log[i].timestamp, i, log[i].random, log[j].timestamp, j, log[j].random);
  }
}
