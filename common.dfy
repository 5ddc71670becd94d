/** Types shared by every service of the gateway: optional values, identifiers,
    instants, and the parsers the services call into but that are not modelled. */
module Common {

  /** Go's `(value, ok)` and `error`-or-nil pairs: None stands for "absent" or "nil error". */
  datatype Option<+T> = None | Some(value: T)

  /** A uuid.UUID. The model uses a natural number; 0 is uuid.Nil. Every
      natural number is a possible identifier, so fresh identifiers never run out. */
  type Uuid = nat

  const Nil: Uuid := 0

  /** A time.Time, as a count of milliseconds since 0000-01-01T00:00:00 UTC
      (proleptic Gregorian calendar). Sub-millisecond precision is not modelled. */
  type Instant = int

  /** uuid.Parse: None when the text is not a UUID. */
  type UuidParser = string -> Option<Uuid>

  /** time.Parse with layout "2006-01-02T15:04:05.000": None when the text does not match. */
  type TimeParser = string -> Option<Instant>

  /** The two text parsers the services use, passed in as oracles. */
  datatype Parsers = Parsers(uuid: UuidParser, time: TimeParser)

  /** What holds of time.Parse for the long layout: the empty string never matches it. */
  predicate RejectsEmptyTime(parse: TimeParser)
  {
    parse("") == None
  }
}
