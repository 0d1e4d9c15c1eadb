/** Optional values, results of operations that the source ends with an exception, and decimal numerals. */
module Wrappers {

  datatype Option<+T> = None | Some(value: T)

  /** `Failure` stands for a raised exception; its wording is not modelled. */
  datatype Result<+T> = Success(value: T) | Failure {

    predicate IsFailure() {
      Failure?
    }

    function PropagateFailure<U>(): Result<U>
      requires Failure?
    {
      Failure
    }

    function Extract(): T
      requires Success?
    {
      value
    }
  }

  /** Decimal digits, as event identities spell a generation. */
  function Decimal(n: nat): string {
    (if n < 10 then "" else Decimal(n / 10)) + [('0' as int + n % 10) as char]
  }

  lemma {:induction false} DecimalIsUnique(m: nat, n: nat)
    requires Decimal(m) == Decimal(n)
    ensures m == n
    decreases m
  {
    var a, b := Decimal(m), Decimal(n);
    assert a[|a| - 1] == b[|b| - 1];
    assert a[..|a| - 1] == b[..|b| - 1];
    if m >= 10 {
      assert |Decimal(m / 10)| > 0;
      assert a[..|a| - 1] == Decimal(m / 10);
      if n >= 10 {
        assert b[..|b| - 1] == Decimal(n / 10);
        DecimalIsUnique(m / 10, n / 10);
      }
    }
    if n >= 10 {
      assert |Decimal(n / 10)| > 0;
    }
  }
}
