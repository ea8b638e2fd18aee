/** A spreadsheet cell as pandas hands it to a per-cell function: missing (NaN or
    None), a number, or a string. */
module Cells {
  datatype Cell = Missing | Number(value: real) | Str(s: string)
}
