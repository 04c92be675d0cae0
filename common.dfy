/** Vocabulary shared by the whole model: optional values, the HTTP status
    codes the views answer with, and powers of ten for fixed-point bounds. */
module Common {

  datatype Option<+T> = None | Some(value: T)

  datatype Result<+T, +E> = Ok(value: T) | Err(error: E)

  /** A field of a request body as a parser sees it: absent, present but not
      of the expected kind (JSON null, a wrong type, an unparsable string),
      or a value of the expected kind. */
  datatype Input<+T> = Absent | Malformed | Given(value: T)

  const OK: int := 200
  const CREATED: int := 201
  const NO_CONTENT: int := 204
  const BAD_REQUEST: int := 400
  const FORBIDDEN: int := 403
  const NOT_FOUND: int := 404
  const SERVER_ERROR: int := 500

  function Pow10(n: nat): (r: nat)
    ensures r >= 1
  {
    if n == 0 then 1 else 10 * Pow10(n - 1)
  }

  lemma {:induction false} Pow10Add(a: nat, b: nat)
    ensures Pow10(a + b) == Pow10(a) * Pow10(b)
  {
    if a > 0 {
      Pow10Add(a - 1, b);
    }
  }

  /** A fixed-point value with `digits` significant digits at most, written
      in units of its last decimal place (cents for 2 places): the bound a
      `DecimalField(max_digits=digits, ...)` column puts on it. */
  predicate FitsDigits(units: int, digits: nat)
  {
    -(Pow10(digits) as int) < units < Pow10(digits)
  }
}
