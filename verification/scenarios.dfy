/**
 * Clients of the adapter that use only the contracts above, following the situations the
 * repository's tests set up.
 */
module Scenarios {
  import opened Wrappers
  import opened Go
  import Facade
  import Logrus
  import opened Levels
  import opened LogrusOptions
  import opened LogrusAdapter

  /**
   * Re-initialising with a new level replaces the handle: after `Init(WithLevel(Debug))` a
   * Debug call is gated on level Debug, after `Init(WithLevel(Info))` on level Info.
   */
  method SetLevelScenario(gate: Logrus.Gate, env: Logrus.Environment) returns (debugShown: bool, debugShownAfter: bool)
    ensures debugShown == gate(Logrus.Debug, Logrus.Debug)
    ensures debugShownAfter == gate(Logrus.Info, Logrus.Debug)
  {
    var l := NewLogger([], env);
    assert [WithLevel(Facade.Debug)][..0] == [];
    var err := l.Init([WithLevel(Facade.Debug)], env);
    debugShown := l.V(gate, Facade.Debug);
    assert [WithLevel(Facade.Info)][..0] == [];
    err := l.Init([WithLevel(Facade.Info)], env);
    debugShownAfter := l.V(gate, Facade.Debug);
  }

  /**
   * A supplied logger is authoritative: a level passed to `Init` is overridden by the logger's
   * own, and the adapter's level check is the logger's.
   */
  method SuppliedLoggerScenario(gate: Logrus.Gate, env: Logrus.Environment, ll: Logrus.Logger, requested: Facade.Level)
    returns (err: Option<InitError>, reported: Facade.Level, shown: bool)
    ensures err == None
    ensures reported == LogrusToLoggerLevel(ll.level)
    ensures shown == gate(ll.level, LoggerToLogrusLevel(requested))
  {
    var l := NewLogger([WithLogger(FromLogger(ll))], env);
    assert [WithLogger(FromLogger(ll))][..0] == [];
    assert [WithLevel(Facade.Trace)][..0] == [];
    err := l.Init([WithLevel(Facade.Trace)], env);
    reported := l.Options().level;
    shown := l.V(gate, requested);
  }

  /** Something other than a logrus logger or entry under `loggerKey` makes `Init` fail and leaves the adapter without a handle. */
  method InvalidTypeScenario(env: Logrus.Environment, typeName: string) returns (err: Option<InitError>, initialised: bool)
    ensures err == Some(InvalidLogrusType(typeName))
    ensures !initialised
  {
    var l := NewLogger([WithLogger(Foreign(typeName))], env);
    assert [WithLogger(Foreign(typeName))][..0] == [];
    err := l.Init([], env);
    initialised := !l.handle.Unset?;
  }

  /**
   * Fields reach the entry that receives the call: after `Fields("key", "val")` an Info call
   * goes to an entry carrying `key = val`, when Info is enabled at level Trace.
   */
  method FieldsScenario(gate: Logrus.Gate, env: Logrus.Environment)
    returns (data: map<string, Any>, received: seq<Logrus.Call>)
    ensures data == map["key" := Str("val")]
    ensures gate(Logrus.Trace, Logrus.Info) ==> received == [Logrus.Call(Logrus.Info, Logrus.Args([Str("message")]))]
    ensures !gate(Logrus.Trace, Logrus.Info) ==> received == []
  {
    var l := NewLogger([WithLevel(Facade.Trace)], env);
    assert [WithLevel(Facade.Trace)][..0] == [];
    var err := l.Init([], env);
    var fields := [Str("key"), Str("val")];
    assert fields[..0] == [];
    var child := l.Fields(fields);
    child.Log(gate, Facade.Info, [Str("message")]);
    data := child.handle.entry.data;
    received := child.handle.entry.calls;
  }
}
