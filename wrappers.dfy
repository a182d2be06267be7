/** Option and Result, used by every module for the source's `Option` and `Result` values
    and for the conditions on which the source panics. */
module Wrappers {

  datatype Option<+T> = None | Some(value: T)

  datatype Result<+T, +E> = Ok(value: T) | Err(error: E)

  /** A result without a value: `Result<(), E>` in the source. */
  datatype Outcome<+E> = Pass | Fail(error: E)
}

/** Facts about multiplication that the buffer layouts use. */
module Arith {

  /** One more stride of w still fits below w * k. */
  lemma MulStep(w: nat, i: nat, k: nat)
    requires i < k
    ensures w * i + w <= w * k
  {
    var d := k - i - 1;
    assert w * k == w * i + w + w * d;
  }
}
