/**
 * `uniqueId`: a closure over a counter that builds ids as
 * `prefix + Date.now().toString(36) + (counter++).toString(36)`, resetting the
 * counter when it reaches `Number.MAX_SAFE_INTEGER`.  The clock reading is a
 * parameter.
 */
module UniqueIds {
  import opened Wire

  const MaxSafeInteger: nat := 9007199254740991

  /** A base-36 digit as `Number.prototype.toString(36)` writes it. */
  predicate IsDigit(c: char) {
    ('0' <= c <= '9') || ('a' <= c <= 'z')
  }

  function Digit(d: nat): (c: char)
    requires d < 36
    ensures IsDigit(c)
  {
    if d < 10 then ('0' as int + d) as char else ('a' as int + d - 10) as char
  }

  function DigitValue(c: char): (d: nat)
    requires IsDigit(c)
    ensures d < 36 && Digit(d) == c
  {
    if c <= '9' then c as int - '0' as int else c as int - 'a' as int + 10
  }

  /** The number a string of base-36 digits denotes, most significant first. */
  function FromBase36(s: string): nat
    requires forall k :: 0 <= k < |s| ==> IsDigit(s[k])
  {
    if s == [] then 0 else FromBase36(s[..|s| - 1]) * 36 + DigitValue(s[|s| - 1])
  }

  /** `n.toString(36)` for a non-negative integer: the shortest digit string
      denoting `n`. */
  function Base36(n: nat): (r: string)
    ensures |r| >= 1
    ensures forall k :: 0 <= k < |r| ==> IsDigit(r[k])
    ensures FromBase36(r) == n
    ensures n > 0 ==> r[0] != '0'
  {
    if n < 36 then [Digit(n)]
    else
      var high := Base36(n / 36);
      var r := high + [Digit(n % 36)];
      assert r[..|r| - 1] == high;
      r
  }

  /** Distinct numbers have distinct base-36 forms. */
  lemma Base36Injective(a: nat, b: nat)
    requires Base36(a) == Base36(b)
    ensures a == b
  {
  }

  /** The id built from a prefix, a clock reading and a counter value. */
  function Compose(prefix: string, now: nat, counter: nat): string {
    prefix + Base36(now) + Base36(counter)
  }

  /** Every id starts with its prefix. */
  lemma ComposeStartsWithPrefix(prefix: string, now: nat, counter: nat)
    ensures |Compose(prefix, now, counter)| > |prefix|
    ensures Compose(prefix, now, counter)[..|prefix|] == prefix
  {
    var id := Compose(prefix, now, counter);
    assert id == prefix + (Base36(now) + Base36(counter));
  }

  /** With the same prefix and clock reading, distinct counter values give distinct ids. */
  lemma {:induction false} ComposeInjective(prefix: string, now: nat, c1: nat, c2: nat)
    requires c1 != c2
    ensures Compose(prefix, now, c1) != Compose(prefix, now, c2)
  {
    var head := prefix + Base36(now);
    assert Compose(prefix, now, c1)[|head|..] == Base36(c1);
    assert Compose(prefix, now, c2)[|head|..] == Base36(c2);
  }

  /** Without the same clock reading the property fails: the clock and counter
      digits are not delimited, so `"1" + "10"` and `"11" + "0"` coincide. */
  lemma ClockAndCounterCanCollide()
    ensures Compose("", 1, 36) == Compose("", 37, 0)
  {
    assert Base36(1) == "1";
    assert Base36(36) == Base36(1) + [Digit(0)] == "10";
    assert Base36(37) == Base36(1) + [Digit(1)] == "11";
    assert Base36(0) == "0";
  }

  /** The closure's state. */
  class UniqueId {
    var counter: nat

    ghost predicate Valid()
      reads this
    {
      counter <= MaxSafeInteger
    }

    constructor ()
      ensures Valid() && counter == 0
    {
      counter := 0;
    }

    /** The counter value a call uses: reset to 0 when it has reached `MAX_SAFE_INTEGER`. */
    static function Used(counter: nat): (u: nat)
      ensures u < MaxSafeInteger || (counter > MaxSafeInteger && u == counter)
      ensures counter == MaxSafeInteger ==> u == 0
      ensures counter != MaxSafeInteger ==> u == counter
    {
      if counter == MaxSafeInteger then 0 else counter
    }

    /** `uniqueId(prefix = '')` at clock reading `now`. */
    method Next(prefix: Option<string>, now: nat) returns (id: string)
      requires Valid()
      modifies this
      ensures Valid()
      ensures id == Compose(prefix.GetOr(""), now, Used(old(counter)))
      ensures counter == Used(old(counter)) + 1
    {
      if counter == MaxSafeInteger {
        counter := 0;
      }
      id := prefix.GetOr("") + Base36(now) + Base36(counter);
      counter := counter + 1;
    }
  }

  /** The counter after `n` calls of `Next` starting from `counter`. */
  function CounterAfter(counter: nat, n: nat): nat {
    if n == 0 then counter else UniqueId.Used(CounterAfter(counter, n - 1)) + 1
  }

  /** Without a reset in between, call `n` uses counter value `counter + n`. */
  lemma {:induction false} CounterAfterNoReset(counter: nat, n: nat)
    requires counter + n <= MaxSafeInteger
    ensures CounterAfter(counter, n) == counter + n
  {
    if n > 0 {
      CounterAfterNoReset(counter, n - 1);
    }
  }

  /**
   * Any two calls of a run of `Next` calls under one prefix and one clock
   * reading return different ids, as long as the counter is not reset
   * between them (the run stays below `MAX_SAFE_INTEGER`).
   */
  lemma CallsBetweenResetsDiffer(prefix: string, now: nat, counter: nat, i: nat, j: nat)
    requires i < j && counter + j < MaxSafeInteger
    ensures Compose(prefix, now, UniqueId.Used(CounterAfter(counter, i)))
         != Compose(prefix, now, UniqueId.Used(CounterAfter(counter, j)))
  {
    CounterAfterNoReset(counter, i);
    CounterAfterNoReset(counter, j);
    ComposeInjective(prefix, now, counter + i, counter + j);
  }

  /** Two successive calls under one prefix and one clock reading return
      different ids, across a reset too: the second call uses the next
      counter value, or 0 after `MAX_SAFE_INTEGER - 1`. */
  lemma {:induction false} SuccessiveCallsDiffer(prefix: string, now: nat, counter: nat)
    requires counter <= MaxSafeInteger
    ensures var first := UniqueId.Used(counter);
      Compose(prefix, now, first) != Compose(prefix, now, UniqueId.Used(first + 1))
  {
    var first := UniqueId.Used(counter);
    ComposeInjective(prefix, now, first, UniqueId.Used(first + 1));
  }
}
