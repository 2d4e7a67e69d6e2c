/** Failure values shared by the model: the exceptions `CodeCanvas.generate_captcha`
    can raise, and the Option/Result wrappers that carry them. */
module Errors {

  datatype Option<+T> = None | Some(value: T)

  /** The three exceptions the generation run can end with. */
  datatype Error =
    | UnsupportedLibrary(lib: string)  // ValueError raised by the backend lookup
    | EmptyRange(lo: int, hi: int)     // ValueError raised by random.randint(lo, hi) when lo > hi
    | EmptyAlphabet                    // IndexError raised by random.choice on an empty string

  datatype Result<+T> = Ok(value: T) | Err(error: Error)

  /** The number of iterations of Python's `range(n)`: none for a negative n. */
  function RangeLen(n: int): (r: nat)
    ensures n >= 0 ==> r == n
    ensures n <= 0 ==> r == 0
  {
    if n < 0 then 0 else n
  }
}
