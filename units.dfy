/** Temperature conversion used for every Celsius field of the snapshot. */
module Units {

  /**
   * `Math.round((f - 32) / 1.8)` for an integer Fahrenheit reading.
   * The exact quotient is 5 * (f - 32) / 9; `Math.round` takes the floor of
   * that plus one half, which is computed here without leaving the integers.
   */
  function FahrenheitToCelsius(f: int): (c: int)
    ensures (c as real) - 0.5 <= ((f - 32) as real) / 1.8 < (c as real) + 0.5
  {
    (10 * (f - 32) + 9) / 18
  }

  /** The exact quotient never ends in exactly one half, so every rounding rule agrees. */
  lemma NeverHalfway(f: int, c: int)
    ensures ((f - 32) as real) / 1.8 != (c as real) - 0.5
  {
  }

  /** The result is the only integer within half a degree of the exact value. */
  lemma NearestIsUnique(f: int, c: int)
    requires (c as real) - 0.5 <= ((f - 32) as real) / 1.8 < (c as real) + 0.5
    ensures c == FahrenheitToCelsius(f)
  {
  }

  /** A warmer Fahrenheit reading never shows as a colder Celsius one. */
  lemma Monotone(f: int, g: int)
    requires f <= g
    ensures FahrenheitToCelsius(f) <= FahrenheitToCelsius(g)
  {
  }

  /** The readings of the example snapshot in the file's header comment, and the fixed points of water. */
  lemma DocumentedReadings()
    ensures FahrenheitToCelsius(89) == 32 && FahrenheitToCelsius(91) == 33
    ensures FahrenheitToCelsius(72) == 22 && FahrenheitToCelsius(90) == 32
    ensures FahrenheitToCelsius(85) == 29 && FahrenheitToCelsius(71) == 22
    ensures FahrenheitToCelsius(32) == 0 && FahrenheitToCelsius(212) == 100
  {
  }
}
