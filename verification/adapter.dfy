/**
 * logrus.go: the adapter `logrusLogger`, which holds its options and a handle on a logrus
 * logger or entry, resolves that handle in `Init`, and gates every logging call on the
 * handle's level check.
 */
module LogrusAdapter {
  import opened Wrappers
  import opened Go
  import Facade
  import Logrus
  import opened Levels
  import opened LogrusOptions

  /** What the adapter's `Logger` field holds: nothing yet, a full logrus logger, or an entry. */
  datatype Handle = Unset | Full(logger: Logrus.Logger) | Derived(entry: Logrus.Entry)

  /** The one error of `Init`: something other than a logrus logger or entry under `loggerKey`. */
  datatype InitError = InvalidLogrusType(typeName: string)

  /** The options `NewLogger` starts from: the facade's options, a text formatter, no hooks, no caller report, `os.Exit`. */
  function Defaults(os: seq<FacadeOption>, env: Logrus.Environment): Options {
    Options(NewOptions(os, env.stderr), Logrus.Text(env.textFormatter), map[], false, env.osExit)
  }

  /**
   * The typed lookups at the start of `Init`: a formatter, hooks or exit function found in the
   * bag replaces the current one; a report-caller flag found in the bag only counts when it is true.
   */
  function BagOverrides(o: Options): Options {
    var bag := o.base.context;
    o.(formatter := if bag.formatter.Some? then bag.formatter.value else o.formatter,
       hooks := if bag.hooks.Some? then bag.hooks.value else o.hooks,
       reportCaller := if bag.reportCaller.Some? && bag.reportCaller.value then true else o.reportCaller,
       exitFunc := if bag.exitFunc.Some? then bag.exitFunc.value else o.exitFunc)
  }

  /** The options after `Init` has applied its arguments and read the bag, before it looks at `loggerKey`. */
  function Merged(o: Options, os: seq<FacadeOption>): Options {
    BagOverrides(o.(base := ApplyAll(o.base, os)))
  }

  /** What `Init` finds under `loggerKey` once the options `os` are applied to `o`. */
  function Supplied(o: Options, os: seq<FacadeOption>): Option<Prebuilt> {
    ApplyAll(o.base, os).context.logger
  }

  /** The last `WithLogger` among the options decides what `Init` dispatches on. */
  lemma {:induction false} LastWithLoggerIsDispatched(o: Options, os: seq<FacadeOption>, j: nat, p: Prebuilt)
    requires j < |os| && os[j] == WithLogger(p)
    requires forall i :: j < i < |os| ==> !Sets(os[i], LoggerKey)
    ensures Supplied(o, os) == Some(p)
  {
    LastStoreWins(o.base, os, j);
  }

  /** Options none of which stores under `loggerKey` (formatter, hooks, caller, exit, level, output) never change what `Init` dispatches on. */
  lemma {:induction false} OtherOptionsKeepDispatch(o: Options, os: seq<FacadeOption>)
    requires forall i :: 0 <= i < |os| ==> !Sets(os[i], LoggerKey)
    ensures Supplied(o, os) == o.base.context.logger
  {
    UntouchedKeyKeepsValue(o.base, os, LoggerKey);
  }

  /** Options that take all six settings from a logrus logger, keeping only the bag of `o`. */
  function Adopt(o: Options, s: Logrus.Settings): Options {
    o.(base := o.base.(level := LogrusToLoggerLevel(s.level), out := s.out),
       formatter := s.formatter,
       hooks := s.hooks,
       reportCaller := s.reportCaller,
       exitFunc := s.exitFunc)
  }

  /** The settings a logger built from options `o` is given. */
  function Configure(o: Options): Logrus.Settings {
    Logrus.Settings(LoggerToLogrusLevel(o.base.level), o.base.out, o.formatter, o.hooks, o.reportCaller, o.exitFunc)
  }

  /** The six settings of options, as the facade and the adapter report them. */
  function SixSettings(o: Options): (Facade.Level, Writer, Logrus.Formatter, Logrus.LevelHooks, bool, ExitFunc) {
    (o.base.level, o.base.out, o.formatter, o.hooks, o.reportCaller, o.exitFunc)
  }

  /**
   * Adopting a logger is authoritative: the six settings that result depend on the logger
   * alone, never on the options they replace, and the bag is kept.
   */
  lemma AdoptionIsAuthoritative(o1: Options, o2: Options, s: Logrus.Settings)
    ensures SixSettings(Adopt(o1, s)) == SixSettings(Adopt(o2, s))
    ensures Adopt(o1, s).base.context == o1.base.context
  {
  }

  /**
   * The reported options reflect the adopted logger: a logger configured from them again has
   * exactly its settings, unless its level is one the facade cannot name (then Info is reported).
   */
  lemma {:induction false} AdoptedOptionsReflectLogger(o: Options, s: Logrus.Settings)
    ensures Recognised(s.level) ==> Configure(Adopt(o, s)) == s
    ensures !Recognised(s.level) ==> Adopt(o, s).base.level == Facade.Info
  {
    if Recognised(s.level) {
      LogrusLevelRoundTrip(s.level);
    }
  }

  /** Re-adopting a logger built from options gives back the options, when their level is listed. */
  lemma {:induction false} ConfigureThenAdopt(o: Options)
    requires Listed(o.base.level)
    ensures Adopt(o, Configure(o)) == o
  {
    LoggerLevelRoundTrip(o.base.level);
  }

  /** A stored `false` never clears a report-caller flag that is already on; a stored `true` turns it on. */
  lemma ReportCallerOnlyTurnsOn(o: Options, os: seq<FacadeOption>)
    ensures Merged(o, os).reportCaller <==> o.reportCaller || ApplyAll(o.base, os).context.reportCaller == Some(true)
    ensures o.reportCaller ==> Merged(o, os).reportCaller
  {
  }

  /** While `ReportCaller` is the only option storing under `reportCallerKey`, the slot holds `true` once it has been applied. */
  lemma {:induction false} ReportCallerSlotStaysTrue(b: FacadeOptions, os: seq<FacadeOption>)
    requires forall i :: 0 <= i < |os| && Sets(os[i], ReportCallerKey) ==> os[i] == ReportCaller()
    requires b.context.reportCaller == Some(true) || ReportCaller() in os
    ensures ApplyAll(b, os).context.reportCaller == Some(true)
    decreases |os|
  {
    if os != [] {
      var init := os[..|os| - 1];
      if b.context.reportCaller == Some(true) || ReportCaller() in init {
        ReportCallerSlotStaysTrue(b, init);
      } else {
        assert os[|os| - 1] == ReportCaller();
      }
    }
  }

  /** Passing `ReportCaller()` to `NewLogger` or `Init` makes `Init` turn caller reporting on. */
  lemma {:induction false} ReportCallerOptionTakesEffect(o: Options, os: seq<FacadeOption>)
    requires forall i :: 0 <= i < |os| && Sets(os[i], ReportCallerKey) ==> os[i] == ReportCaller()
    requires o.base.context.reportCaller == Some(true) || ReportCaller() in os
    ensures Merged(o, os).reportCaller
  {
    ReportCallerSlotStaysTrue(o.base, os);
  }

  /**
   * The formatter `Init` settles on (before looking at `loggerKey`) is the one stored by the
   * last formatter option, whether that option was given to `NewLogger` or to `Init`.
   */
  lemma {:induction false} LastFormatterOptionWins(o: Options, os: seq<FacadeOption>, j: nat)
    requires j < |os| && Sets(os[j], FormatterKey)
    requires forall i :: j < i < |os| ==> !Sets(os[i], FormatterKey)
    ensures Merged(o, os).formatter == os[j].setting.formatter
  {
    LastStoreWins(o.base, os, j);
  }

  /** `NewLogger` does not read the bag: the formatter it starts with is the text formatter, whatever options it is given. */
  lemma NewLoggerDefersBag(os: seq<FacadeOption>, env: Logrus.Environment)
    ensures Defaults(os, env).formatter == Logrus.Text(env.textFormatter)
    ensures Defaults(os, env).hooks == map[] && !Defaults(os, env).reportCaller && Defaults(os, env).exitFunc == env.osExit
  {
  }

  /** A formatter given to `NewLogger` takes effect at the first `Init`, even one without options. */
  lemma {:induction false} ConstructorFormatterReachesInit(os: seq<FacadeOption>, env: Logrus.Environment, j: nat)
    requires j < |os| && Sets(os[j], FormatterKey)
    requires forall i :: j < i < |os| ==> !Sets(os[i], FormatterKey)
    ensures Merged(Defaults(os, env), []).formatter == os[j].setting.formatter
  {
    var o := Defaults(os, env);
    assert ApplyAll(o.base, []) == o.base;
    LastStoreWins(FacadeOptions(Facade.Info, env.stderr, EmptyBag), os, j);
  }

  /** Keys alternate with values, and every key is a string. */
  predicate KeyValuePairs(fields: seq<Any>) {
    |fields| % 2 == 0 && forall i :: 0 <= i < |fields| && i % 2 == 0 ==> fields[i].Str?
  }

  /** The map `Fields` builds: each key mapped to the value after it, pairs taken in order. */
  function FieldMap(fields: seq<Any>): map<string, Any>
    requires KeyValuePairs(fields)
    decreases |fields|
  {
    if fields == [] then map[]
    else
      var n := |fields|;
      FieldMap(fields[..n - 2])[fields[n - 2].s := fields[n - 1]]
  }

  /** A string is a key of the map exactly when it stands at some key position. */
  lemma {:induction false} FieldMapKeys(fields: seq<Any>, k: string)
    requires KeyValuePairs(fields)
    ensures k in FieldMap(fields) <==> exists i :: 0 <= i < |fields| && i % 2 == 0 && fields[i] == Str(k)
    decreases |fields|
  {
    if fields != [] {
      var n := |fields|;
      var init := fields[..n - 2];
      FieldMapKeys(init, k);
      if k in FieldMap(fields) && fields[n - 2] != Str(k) {
        var i :| 0 <= i < |init| && i % 2 == 0 && init[i] == Str(k);
        assert fields[i] == Str(k);
      }
      if exists i :: 0 <= i < |fields| && i % 2 == 0 && fields[i] == Str(k) {
        var i :| 0 <= i < |fields| && i % 2 == 0 && fields[i] == Str(k);
        if i < n - 2 {
          assert init[i] == Str(k);
        }
      }
    }
  }

  /** A later duplicate key wins: a key maps to the value after its last occurrence. */
  lemma {:induction false} FieldMapLastWins(fields: seq<Any>, j: nat)
    requires KeyValuePairs(fields) && j < |fields| && j % 2 == 0
    requires forall i :: j < i < |fields| && i % 2 == 0 ==> fields[i] != fields[j]
    ensures fields[j].s in FieldMap(fields) && FieldMap(fields)[fields[j].s] == fields[j + 1]
    decreases |fields|
  {
    var n := |fields|;
    if j < n - 2 {
      var init := fields[..n - 2];
      FieldMapLastWins(init, j);
      assert fields[n - 2] != fields[j];
    }
  }

  /** `logrusLogger`. */
  class LogrusLogger {
    var handle: Handle
    var opts: Options

    constructor (handle: Handle, opts: Options)
      ensures this.handle == handle && this.opts == opts
    {
      this.handle := handle;
      this.opts := opts;
    }

    /** The logger whose level decides `V`: the handle itself, or an entry's parent. */
    function LevelSource(): set<Logrus.Logger>
      reads this
    {
      match handle
      case Full(ll) => {ll}
      case Derived(e) => {e.logger}
      case Unset => {}
    }

    /** `V`: the handle's level check on the translated level; true when the handle is neither a logger nor an entry. */
    function V(gate: Logrus.Gate, level: Facade.Level): (r: bool)
      reads this, LevelSource()
      ensures handle.Unset? ==> r
      ensures handle.Full? ==> r == gate(handle.logger.level, LoggerToLogrusLevel(level))
      ensures handle.Derived? ==> r == gate(handle.entry.logger.level, LoggerToLogrusLevel(level))
    {
      match handle
      case Full(ll) => ll.IsLevelEnabled(gate, LoggerToLogrusLevel(level))
      case Derived(e) => e.logger.IsLevelEnabled(gate, LoggerToLogrusLevel(level))
      case Unset => true
    }

    /** `String`: the adapter's name. */
    function String(): (name: string)
      ensures name == "logrus"
    {
      "logrus"
    }

    /** `Options`: the facade's part of the options; formatter, hooks, caller flag and exit function are not returned. */
    function Options(): (r: FacadeOptions)
      reads this
      ensures r == opts.base
    {
      opts.base
    }

    /** The logger a derived entry of the handle belongs to. */
    function Parent(): Logrus.Logger
      reads this
      requires !handle.Unset?
    {
      match handle
      case Full(ll) => ll
      case Derived(e) => e.logger
    }

    /** The fields already attached to the handle. */
    function Attached(): map<string, Any>
      reads this
    {
      match handle
      case Full(_) => map[]
      case Derived(e) => e.data
      case Unset => map[]
    }

    function LoggerReceiver(): set<Logrus.Logger>
      reads this
    {
      if handle.Full? then {handle.logger} else {}
    }

    function EntryReceiver(): set<Logrus.Entry>
      reads this
    {
      if handle.Derived? then {handle.entry} else {}
    }

    /** The logging calls the handle has received. */
    function Received(): seq<Logrus.Call>
      reads this, LoggerReceiver(), EntryReceiver()
    {
      match handle
      case Full(ll) => ll.calls
      case Derived(e) => e.calls
      case Unset => []
    }

    /** The typed lookups of `Init`: formatter, hooks, report-caller flag and exit function taken from the bag when present. */
    method ReadBag()
      modifies this`opts
      ensures opts == BagOverrides(old(opts))
    {
      var bag := opts.base.context;
      if bag.formatter.Some? {
        opts := opts.(formatter := bag.formatter.value);
      }
      if bag.hooks.Some? {
        opts := opts.(hooks := bag.hooks.value);
      }
      if bag.reportCaller.Some? && bag.reportCaller.value {
        opts := opts.(reportCaller := bag.reportCaller.value);
      }
      if bag.exitFunc.Some? {
        opts := opts.(exitFunc := bag.exitFunc.value);
      }
    }

    /**
     * `Init`: applies the options, reads the formatter, hooks, caller flag and exit function out
     * of the bag, and then dispatches on what is stored under `loggerKey`.
     */
    method Init(os: seq<FacadeOption>, env: Logrus.Environment) returns (err: Option<InitError>)
      modifies this
      ensures var p := Supplied(old(opts), os); p.Some? && p.value.FromLogger? ==>
        && err == None && handle == Full(p.value.logger)
        && opts == Adopt(Merged(old(opts), os), p.value.logger.Current())
      ensures var p := Supplied(old(opts), os); p.Some? && p.value.FromEntry? ==>
        && err == None && handle == Derived(p.value.entry)
        && opts == Adopt(Merged(old(opts), os), p.value.entry.logger.Current())
      ensures var p := Supplied(old(opts), os); p.Some? && p.value.Foreign? ==>
        && err == Some(InvalidLogrusType(p.value.typeName)) && handle == old(handle)
        && opts == Merged(old(opts), os)
      ensures var p := Supplied(old(opts), os); (p.None? || p.value.Nil?) ==>
        && err == None && opts == Merged(old(opts), os)
        && handle.Full? && fresh(handle.logger)
        && handle.logger.Current() == Configure(opts) && handle.logger.calls == []
    {
      var i := 0;
      while i < |os|
        invariant 0 <= i <= |os|
        invariant opts == old(opts).(base := ApplyAll(old(opts).base, os[..i]))
        invariant handle == old(handle)
      {
        assert os[..i + 1][..i] == os[..i];
        opts := opts.(base := Apply(os[i], opts.base));
        i := i + 1;
      }
      assert os[..|os|] == os;
      ghost var m := Merged(old(opts), os);

      ReadBag();
      assert opts == m;
      var bag := opts.base.context;
      assert bag.logger == Supplied(old(opts), os);

      match bag.logger {
        case Some(FromLogger(ll)) =>
          opts := opts.(base := opts.base.(level := LogrusToLoggerLevel(ll.level)));
          opts := opts.(base := opts.base.(out := ll.out));
          opts := opts.(formatter := ll.formatter);
          opts := opts.(hooks := ll.hooks);
          opts := opts.(reportCaller := ll.reportCaller);
          opts := opts.(exitFunc := ll.exitFunc);
          handle := Full(ll);
          assert opts == Adopt(m, ll.Current());
        case Some(FromEntry(e)) =>
          var el := e.logger;
          opts := opts.(base := opts.base.(level := LogrusToLoggerLevel(el.level)));
          opts := opts.(base := opts.base.(out := el.out));
          opts := opts.(formatter := el.formatter);
          opts := opts.(hooks := el.hooks);
          opts := opts.(reportCaller := el.reportCaller);
          opts := opts.(exitFunc := el.exitFunc);
          handle := Derived(e);
          assert opts == Adopt(m, el.Current());
        case Some(Foreign(t)) =>
          return Some(InvalidLogrusType(t));
        case _ =>
          var log := BuildLogger(opts, env);
          handle := Full(log);
      }
      return None;
    }

    /**
     * `Fields`: builds a map from the alternating keys and values and returns a new adapter with
     * the same options around an entry of the handle carrying them; the receiver is not changed.
     */
    method Fields(fields: seq<Any>) returns (r: LogrusLogger)
      requires !handle.Unset?
      requires KeyValuePairs(fields)
      ensures fresh(r) && r.opts == opts
      ensures r.handle.Derived? && fresh(r.handle.entry) && r.handle.entry.calls == []
      ensures r.handle.entry.logger == Parent()
      ensures r.handle.entry.data == Attached() + FieldMap(fields)
    {
      var flds: map<string, Any> := map[];
      var i := 0;
      while i < |fields|
        invariant 0 <= i <= |fields| && i % 2 == 0
        invariant flds == FieldMap(fields[..i])
      {
        assert fields[..i + 2][..i] == fields[..i];
        flds := flds[fields[i].s := fields[i + 1]];
        i := i + 2;
      }
      assert fields[..|fields|] == fields;
      var e: Logrus.Entry;
      match handle {
        case Full(ll) =>
          e := ll.WithFields(flds);
        case Derived(en) =>
          e := en.WithFields(flds);
      }
      r := new LogrusLogger(Derived(e), opts);
    }

    /** `Log`: delegates the call, at the translated level, exactly when `V` holds; otherwise nothing changes. */
    method Log(gate: Logrus.Gate, level: Facade.Level, args: seq<Any>)
      requires !handle.Unset?
      modifies LoggerReceiver()`calls, EntryReceiver()`calls
      ensures old(V(gate, level)) ==>
        Received() == old(Received()) + [Logrus.Call(LoggerToLogrusLevel(level), Logrus.Args(args))]
      ensures !old(V(gate, level)) ==> Received() == old(Received())
    {
      if !V(gate, level) {
        return;
      }
      match handle
      case Full(ll) =>
        ll.Log(LoggerToLogrusLevel(level), args);
      case Derived(e) =>
        e.Log(LoggerToLogrusLevel(level), args);
    }

    /** `Logf`: as `Log`, for a format and its arguments. */
    method Logf(gate: Logrus.Gate, level: Facade.Level, format: string, args: seq<Any>)
      requires !handle.Unset?
      modifies LoggerReceiver()`calls, EntryReceiver()`calls
      ensures old(V(gate, level)) ==>
        Received() == old(Received()) + [Logrus.Call(LoggerToLogrusLevel(level), Logrus.Formatted(format, args))]
      ensures !old(V(gate, level)) ==> Received() == old(Received())
    {
      if !V(gate, level) {
        return;
      }
      match handle
      case Full(ll) =>
        ll.Logf(LoggerToLogrusLevel(level), format, args);
      case Derived(e) =>
        e.Logf(LoggerToLogrusLevel(level), format, args);
    }
  }

  /** The `case nil` branch of `Init`: `logrus.New()` followed by the six setters, in order. */
  method BuildLogger(o: Options, env: Logrus.Environment) returns (log: Logrus.Logger)
    ensures fresh(log) && log.Current() == Configure(o) && log.calls == []
  {
    log := Logrus.New(env);
    log.SetLevel(LoggerToLogrusLevel(o.base.level));
    log.SetOutput(o.base.out);
    log.SetFormatter(o.formatter);
    var previous := log.ReplaceHooks(o.hooks);
    log.SetReportCaller(o.reportCaller);
    log.exitFunc := o.exitFunc;
    assert log.level == LoggerToLogrusLevel(o.base.level) && log.out == o.base.out;
    assert log.formatter == o.formatter && log.hooks == o.hooks;
  }

  /** `NewLogger`: an adapter with the default options and the given facade options applied, and no handle yet. */
  method NewLogger(os: seq<FacadeOption>, env: Logrus.Environment) returns (l: LogrusLogger)
    ensures fresh(l) && l.handle == Unset && l.opts == Defaults(os, env)
  {
    l := new LogrusLogger(Unset, Defaults(os, env));
  }
}
