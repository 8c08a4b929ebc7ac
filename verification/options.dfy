/**
 * options.go: the adapter's `Options` record and the option constructors that store a value in
 * the facade's option bag, each under a key of its own. The facade's option record, the bag
 * in its `Context` and `logger.SetOption` are represented by the typed record below: one
 * optional slot per key, which `SetOption` overwrites, so a later store under a key wins.
 */
module LogrusOptions {
  import opened Wrappers
  import opened Go
  import Facade
  import Logrus

  /**
   * A value of the package's `Logger` interface, as stored by `WithLogger`: a full logrus
   * logger, a logrus entry, a nil interface, or some other implementation (named by its type).
   */
  datatype Prebuilt =
    | FromLogger(logger: Logrus.Logger)
    | FromEntry(entry: Logrus.Entry)
    | Nil
    | Foreign(typeName: string)

  /** The keys `formatterKey`, `hooksKey`, `reportCallerKey`, `exitKey` and `loggerKey`. */
  datatype Key = FormatterKey | HooksKey | ReportCallerKey | ExitKey | LoggerKey

  /** A value together with the key it is stored under. */
  datatype Setting =
    | FormatterValue(formatter: Logrus.Formatter)
    | HooksValue(hooks: Logrus.LevelHooks)
    | ReportCallerValue(reportCaller: bool)
    | ExitValue(exitFunc: ExitFunc)
    | LoggerValue(logger: Prebuilt)

  function KeyOf(s: Setting): Key {
    match s
    case FormatterValue(_) => FormatterKey
    case HooksValue(_) => HooksKey
    case ReportCallerValue(_) => ReportCallerKey
    case ExitValue(_) => ExitKey
    case LoggerValue(_) => LoggerKey
  }

  /** The option bag as the adapter reads it: what, if anything, is stored under each key. */
  datatype Bag = Bag(
    formatter: Option<Logrus.Formatter>,
    hooks: Option<Logrus.LevelHooks>,
    reportCaller: Option<bool>,
    exitFunc: Option<ExitFunc>,
    logger: Option<Prebuilt>)

  const EmptyBag: Bag := Bag(None, None, None, None, None)

  /** What a typed lookup of key `k` finds in `bag`. */
  function Lookup(bag: Bag, k: Key): (r: Option<Setting>)
    ensures r.Some? ==> KeyOf(r.value) == k
  {
    match k
    case FormatterKey => if bag.formatter.Some? then Some(FormatterValue(bag.formatter.value)) else None
    case HooksKey => if bag.hooks.Some? then Some(HooksValue(bag.hooks.value)) else None
    case ReportCallerKey => if bag.reportCaller.Some? then Some(ReportCallerValue(bag.reportCaller.value)) else None
    case ExitKey => if bag.exitFunc.Some? then Some(ExitValue(bag.exitFunc.value)) else None
    case LoggerKey => if bag.logger.Some? then Some(LoggerValue(bag.logger.value)) else None
  }

  /** `SetOption(key, value)` on the bag: the setting is found under its own key and every other key is untouched. */
  function Store(bag: Bag, s: Setting): (r: Bag)
    ensures Lookup(r, KeyOf(s)) == Some(s)
    ensures forall k :: k != KeyOf(s) ==> Lookup(r, k) == Lookup(bag, k)
  {
    match s
    case FormatterValue(f) => bag.(formatter := Some(f))
    case HooksValue(h) => bag.(hooks := Some(h))
    case ReportCallerValue(b) => bag.(reportCaller := Some(b))
    case ExitValue(x) => bag.(exitFunc := Some(x))
    case LoggerValue(p) => bag.(logger := Some(p))
  }

  /** `logger.Options`, as far as this adapter uses it: the level, the output and the bag in `Context`. */
  datatype FacadeOptions = FacadeOptions(level: Facade.Level, out: Writer, context: Bag)

  /** `logger.Option`: the facade's `WithLevel`, `WithOutput` and `SetOption`. */
  datatype FacadeOption =
    | WithLevel(level: Facade.Level)
    | WithOutput(out: Writer)
    | SetOption(setting: Setting)

  /** Applying one option to the facade's options. */
  function Apply(o: FacadeOption, b: FacadeOptions): FacadeOptions {
    match o
    case WithLevel(l) => b.(level := l)
    case WithOutput(w) => b.(out := w)
    case SetOption(s) => b.(context := Store(b.context, s))
  }

  /** Applying options in order, the first one first. */
  function ApplyAll(b: FacadeOptions, os: seq<FacadeOption>): FacadeOptions
    decreases |os|
  {
    if os == [] then b else Apply(os[|os| - 1], ApplyAll(b, os[..|os| - 1]))
  }

  /** `logger.NewOptions(opts...)`: level Info, standard error, an empty bag, then the options. */
  function NewOptions(os: seq<FacadeOption>, stderr: Writer): FacadeOptions {
    ApplyAll(FacadeOptions(Facade.Info, stderr, EmptyBag), os)
  }

  /** `Options`: the facade's options plus the four logrus settings. */
  datatype Options = Options(
    base: FacadeOptions,
    formatter: Logrus.Formatter,
    hooks: Logrus.LevelHooks,
    reportCaller: bool,
    exitFunc: ExitFunc)

  /** `WithTextTextFormatter`: stores a text formatter under `formatterKey`. */
  function WithTextTextFormatter(f: Logrus.TextFormatter): (o: FacadeOption)
    ensures o.SetOption? && KeyOf(o.setting) == FormatterKey
    ensures o.setting.formatter == Logrus.Text(f)
  {
    SetOption(FormatterValue(Logrus.Text(f)))
  }

  /** `WithJSONFormatter`: stores a JSON formatter under the same `formatterKey`. */
  function WithJSONFormatter(f: Logrus.JSONFormatter): (o: FacadeOption)
    ensures o.SetOption? && KeyOf(o.setting) == FormatterKey
    ensures o.setting.formatter == Logrus.Json(f)
  {
    SetOption(FormatterValue(Logrus.Json(f)))
  }

  /** `WithLevelHooks`: stores hooks under `hooksKey`. */
  function WithLevelHooks(h: Logrus.LevelHooks): (o: FacadeOption)
    ensures o.SetOption? && KeyOf(o.setting) == HooksKey
    ensures o.setting.hooks == h
  {
    SetOption(HooksValue(h))
  }

  /** `ReportCaller`: stores `true` (never `false`) under `reportCallerKey`. */
  function ReportCaller(): (o: FacadeOption)
    ensures o.SetOption? && KeyOf(o.setting) == ReportCallerKey
    ensures o.setting.reportCaller
  {
    SetOption(ReportCallerValue(true))
  }

  /** `WithExitFunc`: stores an exit function under `exitKey`. */
  function WithExitFunc(x: ExitFunc): (o: FacadeOption)
    ensures o.SetOption? && KeyOf(o.setting) == ExitKey
    ensures o.setting.exitFunc == x
  {
    SetOption(ExitValue(x))
  }

  /** `WithLogger`: stores a pre-built logger under `loggerKey`. */
  function WithLogger(p: Prebuilt): (o: FacadeOption)
    ensures o.SetOption? && KeyOf(o.setting) == LoggerKey
    ensures o.setting.logger == p
  {
    SetOption(LoggerValue(p))
  }

  /** Does option `o` store something under key `k`? */
  predicate Sets(o: FacadeOption, k: Key) {
    o.SetOption? && KeyOf(o.setting) == k
  }

  /**
   * Keys are independent: options none of which store under `k` leave what a lookup of `k`
   * finds as it was, whatever else they set.
   */
  lemma {:induction false} UntouchedKeyKeepsValue(b: FacadeOptions, os: seq<FacadeOption>, k: Key)
    requires forall i :: 0 <= i < |os| ==> !Sets(os[i], k)
    ensures Lookup(ApplyAll(b, os).context, k) == Lookup(b.context, k)
    decreases |os|
  {
    if os != [] {
      UntouchedKeyKeepsValue(b, os[..|os| - 1], k);
    }
  }

  /**
   * Later options win: when `os[j]` is the last option that stores under its key, a lookup of
   * that key after all of `os` finds exactly what `os[j]` stored.
   */
  lemma {:induction false} LastStoreWins(b: FacadeOptions, os: seq<FacadeOption>, j: nat)
    requires j < |os| && os[j].SetOption?
    requires forall i :: j < i < |os| ==> !Sets(os[i], KeyOf(os[j].setting))
    ensures Lookup(ApplyAll(b, os).context, KeyOf(os[j].setting)) == Some(os[j].setting)
    decreases |os|
  {
    if j < |os| - 1 {
      LastStoreWins(b, os[..|os| - 1], j);
    }
  }

  /** Options none of which is a `WithLevel` leave the level as it was. */
  lemma {:induction false} LevelKeptWithoutWithLevel(b: FacadeOptions, os: seq<FacadeOption>)
    requires forall i :: 0 <= i < |os| ==> !os[i].WithLevel?
    ensures ApplyAll(b, os).level == b.level
    decreases |os|
  {
    if os != [] {
      LevelKeptWithoutWithLevel(b, os[..|os| - 1]);
    }
  }

  /** The level after a run of options is the one the last `WithLevel` among them gave. */
  lemma {:induction false} LastLevelWins(b: FacadeOptions, os: seq<FacadeOption>, j: nat)
    requires j < |os| && os[j].WithLevel?
    requires forall i :: j < i < |os| ==> !os[i].WithLevel?
    ensures ApplyAll(b, os).level == os[j].level
    decreases |os|
  {
    if j < |os| - 1 {
      LastLevelWins(b, os[..|os| - 1], j);
    }
  }

  /** Both formatter options write the one formatter slot: a JSON formatter stored after a text formatter replaces it, and the other way round. */
  lemma OneFormatterSlot(b: FacadeOptions, t: Logrus.TextFormatter, j: Logrus.JSONFormatter)
    ensures ApplyAll(b, [WithTextTextFormatter(t), WithJSONFormatter(j)]).context.formatter == Some(Logrus.Json(j))
    ensures ApplyAll(b, [WithJSONFormatter(j), WithTextTextFormatter(t)]).context.formatter == Some(Logrus.Text(t))
  {
  }
}
