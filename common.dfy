/** Small value types shared by every page model. */
module Common {

  /** A value that may be missing: `undefined`/`null` in the React components. */
  datatype Option<+T> = None | Some(value: T)

  /** The outcome of a check that either accepts a value or rejects it with a message. */
  datatype Result<+T, +E> = Ok(value: T) | Err(error: E)

  /** The colour family of a Tailwind class the pages pick by a condition
      (`text-green-400`, `bg-red-500/20`, ...); shades are presentational. */
  datatype Tone = Green | Yellow | Orange | Red
}
