/**
 * `MessageFlags`: the one-bit cell a consumer and the producer interceptor
 * share, through which a retryable failure tells the interceptor to let the
 * retry record through.
 */
module Flags {
  class MessageFlags {
    var retryable: bool

    /** A fresh cell is not retryable. */
    constructor ()
      ensures !retryable
    {
      retryable := false;
    }

    /** `setRetryable(value)`. */
    method SetRetryable(value: bool)
      modifies this
      ensures retryable == value
    {
      retryable := value;
    }

    /** `isRetryable()`. */
    predicate IsRetryable()
      reads this
    {
      retryable
    }

    /** `destroy()`: after it the cell reads as not retryable. */
    method Destroy()
      modifies this
      ensures !IsRetryable()
    {
      retryable := false;
    }
  }
}
