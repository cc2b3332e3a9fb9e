/** `AttemptsManager`: runs a throwing block again after each failure until it
    succeeds or the attempt counter reaches `maxAttempts`. */
module Attempts {
  import opened Wrappers

  /** The number of calls left before giving up when the counter stands at
      `attempts`: the block is always called once, and again while the
      incremented counter stays below `maxAttempts`. */
  function Budget(maxAttempts: int, attempts: nat): (n: nat)
    ensures n >= 1
    ensures n == 1 <==> attempts + 1 >= maxAttempts
  {
    if attempts < maxAttempts then maxAttempts - attempts else 1
  }

  /** What a call of `execute` produces: the value returned or the error
      thrown, and how many calls of the block have been made in all. */
  datatype Execution<T, E> = Execution(result: Result<T, E>, calls: nat)

  /** The recursion of `execute`, with the counter at `attempts` and `calls`
      calls of the block made before; `block(k)` is the outcome of the k-th
      call. It calls the block between 1 and `Budget` times, returns the
      outcome of the last call, every earlier call failed, and it fails only
      once the budget is used up. */
  function Run<T, E>(maxAttempts: int, attempts: nat, block: nat -> Result<T, E>, calls: nat)
    : (x: Execution<T, E>)
    ensures calls < x.calls <= calls + Budget(maxAttempts, attempts)
    ensures x.result == block(x.calls - 1)
    ensures forall k :: calls <= k < x.calls - 1 ==> block(k).Failure?
    ensures x.result.Failure? ==> x.calls == calls + Budget(maxAttempts, attempts)
    decreases Budget(maxAttempts, attempts)
  {
    match block(calls)
    case Success(v) => Execution(Success(v), calls + 1)
    case Failure(e) =>
      if attempts + 1 < maxAttempts then Run(maxAttempts, attempts + 1, block, calls + 1)
      else Execution(Failure(e), calls + 1)
  }

  class AttemptsManager {
    /** The counter of failed attempts. */
    var attempts: nat

    constructor ()
      ensures attempts == 0
    {
      attempts := 0;
    }

    /** `increment()` */
    method Increment()
      modifies this
      ensures attempts == old(attempts) + 1
    {
      attempts := attempts + 1;
    }

    /** `restore()` */
    method Restore()
      modifies this
      ensures attempts == 0
    {
      attempts := 0;
    }

    /** `execute(maxAttempts:_:)`: returns the outcome of the last call of the
        block and the number of calls made, as `Run` describes from the current
        counter, and leaves the counter at 0. */
    method Execute<T, E>(maxAttempts: int, block: nat -> Result<T, E>) returns (result: Result<T, E>, calls: nat)
      modifies this
      ensures Execution(result, calls) == Run(maxAttempts, old(attempts), block, 0)
      ensures attempts == 0
    {
      calls := 0;
      while true
        invariant Run(maxAttempts, old(attempts), block, 0) == Run(maxAttempts, attempts, block, calls)
        decreases Budget(maxAttempts, attempts)
      {
        result := block(calls);
        calls := calls + 1;
        if result.Success? {
          Restore();
          return;
        }
        Increment();
        if !(attempts < maxAttempts) {
          Restore();
          return;
        }
      }
    }
  }

  /** From a fresh counter, a block that always fails is called
      max(1, maxAttempts) times and the error of the last call is thrown. */
  lemma AlwaysFailingBlock<T, E>(maxAttempts: int, block: nat -> Result<T, E>)
    requires forall k :: block(k).Failure?
    ensures var x := Run(maxAttempts, 0, block, 0);
            && x.calls == (if maxAttempts > 1 then maxAttempts else 1)
            && x.result == block(x.calls - 1)
  {
  }

  /** From a fresh counter, a block that fails once and then succeeds is
      called exactly twice when `maxAttempts` is 3, and its value returned. */
  lemma SucceedsAtSecondAttempt<T, E>(block: nat -> Result<T, E>)
    requires block(0).Failure? && block(1).Success?
    ensures Run(3, 0, block, 0) == Execution(block(1), 2)
  {
  }

  /** A block that succeeds at once is called once, whatever `maxAttempts`. */
  lemma SucceedsAtFirstAttempt<T, E>(maxAttempts: int, attempts: nat, block: nat -> Result<T, E>)
    requires block(0).Success?
    ensures Run(maxAttempts, attempts, block, 0) == Execution(block(0), 1)
  {
  }
}
