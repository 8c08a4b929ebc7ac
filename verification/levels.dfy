/**
 * The level translator of logrus.go: two total switch functions between the facade's levels and
 * logrus's levels, each falling back to Info on a value it does not list.
 */
module Levels {
  import Facade
  import Logrus

  /** One of the six facade levels named by the translator. */
  predicate Listed(l: Facade.Level) {
    !l.Unlisted?
  }

  /** One of the six logrus levels named by the translator (Panic is not one of them). */
  predicate Recognised(l: Logrus.Level) {
    !l.Panic? && !l.Unlisted?
  }

  /** `loggerToLogrusLevel`: never fails, never yields Panic, and sends an unlisted level to Info. */
  function LoggerToLogrusLevel(level: Facade.Level): (r: Logrus.Level)
    ensures Recognised(r)
    ensures !Listed(level) ==> r == Logrus.Info
  {
    match level
    case Trace => Logrus.Trace
    case Debug => Logrus.Debug
    case Info => Logrus.Info
    case Warn => Logrus.Warn
    case Error => Logrus.Error
    case Fatal => Logrus.Fatal
    case Unlisted => Logrus.Info
  }

  /** `logrusToLoggerLevel`: never fails, always yields a listed level, and sends Panic or an unlisted level to Info. */
  function LogrusToLoggerLevel(level: Logrus.Level): (r: Facade.Level)
    ensures Listed(r)
    ensures !Recognised(level) ==> r == Facade.Info
  {
    match level
    case Trace => Facade.Trace
    case Debug => Facade.Debug
    case Info => Facade.Info
    case Warn => Facade.Warn
    case Error => Facade.Error
    case Fatal => Facade.Fatal
    case Panic => Facade.Info
    case Unlisted => Facade.Info
  }

  /** Translating a listed facade level to logrus and back gives the level again. */
  lemma LoggerLevelRoundTrip(l: Facade.Level)
    requires Listed(l)
    ensures LogrusToLoggerLevel(LoggerToLogrusLevel(l)) == l
  {
  }

  /** Translating a recognised logrus level to the facade and back gives the level again. */
  lemma LogrusLevelRoundTrip(l: Logrus.Level)
    requires Recognised(l)
    ensures LoggerToLogrusLevel(LogrusToLoggerLevel(l)) == l
  {
  }

  /**
   * The six listed levels and the six recognised levels correspond one to one: the forward map
   * is injective on listed levels and reaches every recognised level.
   */
  lemma {:induction false} SixWayCorrespondence(a: Facade.Level, b: Facade.Level, r: Logrus.Level)
    requires Listed(a) && Listed(b) && Recognised(r)
    ensures LoggerToLogrusLevel(a) == LoggerToLogrusLevel(b) ==> a == b
    ensures Listed(LogrusToLoggerLevel(r)) && LoggerToLogrusLevel(LogrusToLoggerLevel(r)) == r
  {
    LoggerLevelRoundTrip(a);
    LoggerLevelRoundTrip(b);
    LogrusLevelRoundTrip(r);
  }

  /** The forward map is the same on an unlisted level as on Info. */
  lemma UnlistedTranslatesAsInfo(l: Facade.Level)
    requires !Listed(l)
    ensures LoggerToLogrusLevel(l) == LoggerToLogrusLevel(Facade.Info)
  {
  }
}
