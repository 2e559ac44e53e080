/**
 * The raw request payloads that reach the validation layer, and the issues
 * the validation layer reports about them.
 *
 * Requests travel through the RPC layer with the superjson transformer, so a
 * payload is a JSON document in which `Date` objects survive as dates.
 */
module Values {
  import opened Wrappers

  /** A calendar date or timestamp, as the milliseconds since the epoch that a JavaScript `Date` holds. */
  type Date = int

  /** A decoded request value. An object key that is absent stands for `undefined`. */
  datatype Value =
    | Null
    | Bool(b: bool)
    | Num(n: real)
    | Str(s: string)
    | Time(t: Date)
    | Arr(items: seq<Value>)
    | Obj(fields: map<string, Value>)

  /**
   * The parts of the validation library whose behaviour this model does not
   * look inside: date coercion (`z.coerce.date()`), and the URL and e-mail
   * string formats (`z.string().url()`, `z.string().email()`).
   */
  datatype Zod = Zod(
    coerceDate: Value -> Option<Date>,
    isUrl: string -> bool,
    isEmail: string -> bool)

  /** Coercing a value that already is a `Date` yields that date. */
  ghost predicate KeepsDates(zod: Zod)
  {
    forall t: Date :: zod.coerceDate(Time(t)) == Some(t)
  }

  /** Why a value was refused. */
  datatype IssueCode =
    | Required          // the key is absent (an `invalid_type` issue that received `undefined`); not for coerced dates
    | InvalidType       // a value of the wrong kind, e.g. a number where a string is expected
    | TooSmall          // below a `min`, `positive` or `nonnegative` bound, or too short a string
    | TooBig            // above a `max` bound
    | NotInteger        // a fractional number where `int()` is asked for
    | InvalidEnumValue  // a string outside the enumeration's options
    | InvalidUrl
    | InvalidEmail
    | InvalidDate

  /** One reported issue: the path of the offending field (empty for the payload itself) and why. */
  datatype Issue = Issue(path: seq<string>, code: IssueCode)
}
