// Instants and durations as Go's time package counts them.
module Clock {

  // Nanoseconds from Go's zero time; 0 is the zero Time, for which IsZero() holds.
  type Time = int
  type Duration = int

  const MAX_DURATION: Duration := 0x7FFF_FFFF_FFFF_FFFF
  const MIN_DURATION: Duration := -0x8000_0000_0000_0000

  // a.Sub(b): the difference, saturated to the range of a 64-bit duration.
  function Sub(a: Time, b: Time): Duration {
    var d := a - b;
    if d > MAX_DURATION then MAX_DURATION else if d < MIN_DURATION then MIN_DURATION else d
  }
}
