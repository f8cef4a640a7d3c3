/**
 * Readings of the browser environment that the page takes from its host:
 * the clock and the window. They enter the model as plain values.
 */
module Host {

  /** One reading of the clock: `Date.now()`, `toISOString()` and `toLocaleTimeString()`. */
  datatype Instant = Instant(ms: nat, iso: string, local: string)

  /** The window properties the state-response reply reports. */
  datatype WindowInfo = WindowInfo(
    href: string,
    scrollY: int,
    userAgent: string,
    innerWidth: int,
    innerHeight: int)
}
