/**
 * Column types shared by the tables: primary and foreign keys are uuid
 * strings, money columns are `decimal(10,2)` held here in hundredths, and the
 * time-of-day columns are `varchar(10)`.
 */
module Columns {
  type Id = string

  /** One more than the largest magnitude, in hundredths, that `decimal(10,2)` stores (eight integer digits). */
  const DecimalLimit: int := 10_000_000_000

  /** `decimal(10,2)` accepts the amount (in hundredths) without overflow. */
  predicate FitsDecimal(amount: int) {
    -DecimalLimit < amount < DecimalLimit
  }

  /** `varchar(10)` accepts the text. */
  predicate FitsVarchar10(s: string) {
    |s| <= 10
  }
}
