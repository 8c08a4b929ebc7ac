/**
 * The part of the micro `logger` facade that the adapter translates: its level enumeration.
 */
module Facade {
  /**
   * `logger.Level`. The facade's level type is an integer type, so values outside the six named
   * constants exist; `Unlisted` stands for any of them.
   */
  datatype Level = Trace | Debug | Info | Warn | Error | Fatal | Unlisted
}
