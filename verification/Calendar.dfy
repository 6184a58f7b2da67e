/** Instants are integer microseconds; a station's local clock is a fixed offset from UTC. */
module Calendar {

  const SECOND: int := 1_000_000
  const MINUTE: int := 60_000_000
  const DAY: int := 86_400_000_000

  /** The local calendar date of an instant, as a day number. */
  function LocalDate(t: int, off: int): int {
    (t + off) / DAY
  }

  /** The instant at which local day `d` begins. */
  function Midnight(d: int, off: int): int {
    d * DAY - off
  }

  lemma DateBracket(t: int, off: int)
    ensures Midnight(LocalDate(t, off), off) <= t < Midnight(LocalDate(t, off) + 1, off)
  {
  }

  lemma DateUnique(t: int, d: int, off: int)
    requires Midnight(d, off) <= t < Midnight(d + 1, off)
    ensures LocalDate(t, off) == d
  {
  }

  lemma DateMonotone(t: int, u: int, off: int)
    requires t <= u
    ensures LocalDate(t, off) <= LocalDate(u, off)
  {
  }
}
