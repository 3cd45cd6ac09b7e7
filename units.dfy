/** Time units and periods (pystreamv.py, "Units / Period"). A unit is a name
    with a scale factor in seconds; `k * unit` builds a period. Floats are
    modelled as exact reals. */
module Units {

  datatype Unit = Unit(name: string, toSeconds: real)

  datatype Period = Period(value: real, unit: Unit)

  /** The four predefined units. */
  const Seconds := Unit("s", 1.0)
  const Milliseconds := Unit("ms", 0.001)
  const Minutes := Unit("m", 60.0)
  const Hours := Unit("h", 3600.0)

  /** `k * u` (Unit.__rmul__): a period of magnitude k in unit u. */
  function Scale(k: real, u: Unit): (p: Period)
    ensures p.value == k && p.unit == u
  {
    Period(k, u)
  }

  /** Period.to_seconds: a period in seconds is its own value, and a
      non-negative period of a non-negative unit lasts non-negative time. */
  function ToSeconds(p: Period): (r: real)
    ensures p.unit.toSeconds == 1.0 ==> r == p.value
    ensures p.value >= 0.0 && p.unit.toSeconds >= 0.0 ==> r >= 0.0
  {
    p.value * p.unit.toSeconds
  }

  /** A scaled period lasts k times the unit's length in seconds; with the
      predefined units, 10 s is 10 seconds and 10 m is 600 seconds. */
  lemma ScaleToSeconds(k: real, u: Unit)
    ensures ToSeconds(Scale(k, u)) == k * u.toSeconds
    ensures ToSeconds(Scale(10.0, Seconds)) == 10.0
    ensures ToSeconds(Scale(10.0, Minutes)) == 600.0
    ensures ToSeconds(Scale(k, Milliseconds)) * 1000.0 == k
  {
  }
}
