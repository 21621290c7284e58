/** Types that several components use. */
module Common {

  datatype Option<+T> = None | Some(value: T)

  /** The types of a workflow input that a profile may expose. */
  datatype ValueType = StringType | IntegerType | FloatType | BooleanType

  /** 2 ** 53 - 1, the largest integer that every JSON reader keeps exact. */
  const MAX_SAFE_INTEGER: int := 0x1F_FFFF_FFFF_FFFF
}

/** The outcome of an operation that may be refused. */
module Results {

  datatype Try<+T, +E> = Ok(value: T) | Err(error: E)
}
