/** Types shared by every part of the model. */
module Common {

  type Tenant = string
  type Id = string
  type Byte = bv8
  type Bytes = seq<Byte>

  /** Instants and durations are whole nanoseconds. */
  type Nanos = int

  const MINUTE: Nanos := 60_000_000_000

  datatype Option<+T> = None | Some(value: T)

  /** What a context reports at a point where the code asks it for its error. */
  datatype Ctx = Live | Canceled | Expired
}
