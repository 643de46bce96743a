/** Option and Result types shared by the scraper model. */
module Outcomes {

  /** Python's `None`-or-value, used where the scraper looks something up. */
  datatype Option<+T> = None | Some(value: T)

  /** The outcome of a Python step that may raise: `Raised` stands for any
      exception (KeyError, TypeError, AttributeError, ...), since the scraper
      only ever catches them all at once. */
  datatype Result<+T> = Ok(value: T) | Raised {

    predicate IsFailure() {
      Raised?
    }

    function PropagateFailure<U>(): Result<U>
      requires Raised?
    {
      Raised
    }

    function Extract(): T
      requires Ok?
    {
      value
    }
  }
}
