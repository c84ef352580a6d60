/** Stand-ins for the parts of Go's runtime library the publishers read. */
module Runtime {
  /** A context.Context value; only its identity matters to the model. */
  datatype Context = Background | Derived(id: nat)

  // time.Duration constants, in nanoseconds
  const Microsecond: int := 1000
  const Millisecond: int := 1000000
  const Second: int := 1000000000
  const Minute: int := 60000000000
}
