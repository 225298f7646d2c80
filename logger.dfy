/** The configuration and filtering logic of src/logging/logger.ts: level and
    destination normalisation, the level filter, the console tag, the log
    entry written to the file and the child logger. Console and file output,
    timestamps, the JSON serialisation and the caller location are inputs or
    outputs of this model, not computed by it. */
module Logging {
  import opened Optional
  import opened Js
  import opened Text

  datatype Level = Debug | Info | Warn | Error

  function LevelName(l: Level): string
  {
    match l
    case Debug => "debug"
    case Info => "info"
    case Warn => "warn"
    case Error => "error"
  }

  /** `LEVEL_ORDER`. */
  function Order(l: Level): int
  {
    match l
    case Debug => 10
    case Info => 20
    case Warn => 30
    case Error => 40
  }

  /** `normalizeLevel`: the four level names stand for themselves; anything
      else, absent included, is "info". */
  function NormalizeLevel(input: Option<string>): (l: Level)
    ensures forall x: Level :: input == Some(LevelName(x)) ==> l == x
    ensures input == Some(LevelName(l)) || l == Info
  {
    match input
    case Some("debug") => Debug
    case Some("info") => Info
    case Some("warn") => Warn
    case Some("error") => Error
    case _ => Info
  }

  /** Normalising a level's own name gives the level back. */
  lemma NormalizeLevelName(l: Level)
    ensures NormalizeLevel(Some(LevelName(l))) == l
  {
  }

  /** The filter at the top of `write`: a message at `l` is kept unless its
      order is below the configured level's. */
  predicate Admits(configured: Level, l: Level)
  {
    !(Order(l) < Order(configured))
  }

  /** The filter is a total order on levels: "error" always passes, "debug"
      passes only at "debug", and lowering the configured level never drops a
      message that passed before. */
  lemma AdmitsIsThreshold(configured: Level, lower: Level, l: Level)
    ensures Admits(configured, Error)
    ensures Admits(configured, Debug) <==> configured == Debug
    ensures Admits(configured, l) && Order(lower) <= Order(configured) ==> Admits(lower, l)
    ensures Admits(configured, l) || Admits(l, configured)
    ensures Admits(configured, l) && Admits(l, configured) ==> l == configured
  {
  }

  datatype Destination = Console | File | Both

  function DestinationName(d: Destination): string
  {
    match d
    case Console => "console"
    case File => "file"
    case Both => "both"
  }

  /** `normalizeDestination`: the three destination names stand for
      themselves; anything else is absent. */
  function NormalizeDestination(input: Option<string>): (d: Option<Destination>)
    ensures forall x: Destination :: input == Some(DestinationName(x)) <==> d == Some(x)
  {
    match input
    case Some("console") => Some(Console)
    case Some("file") => Some(File)
    case Some("both") => Some(Both)
    case _ => None
  }

  /** `normalizeFilePath`: absent, empty and all-whitespace paths are absent;
      any other path is trimmed. */
  function NormalizeFilePath(input: Option<string>): (p: Option<string>)
    ensures p.None? <==> input.None? || Trim(input.value) == []
    ensures p.Some? ==> p.value == Trim(input.value)
  {
    if input.None? || input.value == [] then None
    else
      var trimmed := Trim(input.value);
      if |trimmed| > 0 then Some(trimmed) else None
  }

  /** A path that was normalised once is left alone by normalising again. */
  lemma NormalizeFilePathIdempotent(input: Option<string>)
    ensures NormalizeFilePath(NormalizeFilePath(input)) == NormalizeFilePath(input)
  {
    if input.Some? {
      TrimIdempotent(input.value);
    }
  }

  /** `TAG_KEYS`, in the order they are tried. */
  const TagKeys: seq<string> := ["component", "command", "module", "scope", "service", "name", "class"]

  /** `TAG_KEYS[j]` holds a value that can serve as the console tag: a
      string that is not blank. */
  predicate QualifiesAt(base: map<string, Value>, j: nat)
    requires j < |TagKeys|
  {
    TagKeys[j] in base && base[TagKeys[j]].Str? && Trim(base[TagKeys[j]].s) != []
  }

  /** `TAG_KEYS[j]` is the first qualifying key from index `i` on. */
  predicate FirstQualifying(base: map<string, Value>, i: nat, j: nat)
    requires i <= j < |TagKeys|
  {
    QualifiesAt(base, j) && forall k :: i <= k < j ==> !QualifiesAt(base, k)
  }

  /** A tag as the console shows it. */
  function Braced(t: string): (r: string)
    ensures |r| == |t| + 2 && r[0] == '{' && r[|r| - 1] == '}' && r[1..|r| - 1] == t
  {
    "{" + t + "}"
  }

  /** The tag made from the first qualifying key among `TAG_KEYS[i..]`. */
  function TagFrom(base: map<string, Value>, i: nat): Option<string>
    requires i <= |TagKeys|
    decreases |TagKeys| - i
  {
    if i == |TagKeys| then None
    else if QualifiesAt(base, i) then Some(Braced(Trim(base[TagKeys[i]].s)))
    else TagFrom(base, i + 1)
  }

  /** There is no tag exactly when no key qualifies. */
  lemma {:induction false} TagFromNone(base: map<string, Value>, i: nat)
    requires i <= |TagKeys|
    ensures TagFrom(base, i).None? <==> forall j :: i <= j < |TagKeys| ==> !QualifiesAt(base, j)
    decreases |TagKeys| - i
  {
    if i < |TagKeys| {
      TagFromNone(base, i + 1);
    }
  }

  /** A tag comes from the first qualifying key, trimmed and braced. */
  lemma {:induction false} TagFromIsFirst(base: map<string, Value>, i: nat, j: nat)
    requires i <= j < |TagKeys| && FirstQualifying(base, i, j)
    ensures TagFrom(base, i) == Some(Braced(Trim(base[TagKeys[j]].s)))
    decreases j - i
  {
    TagStep(base, i);
    if i < j {
      assert !QualifiesAt(base, i);
      assert FirstQualifying(base, i + 1, j);
      TagFromIsFirst(base, i + 1, j);
    }
  }

  lemma NoTagWithoutKeys(base: map<string, Value>)
    requires |base| == 0
    ensures TagFrom(base, 0).None?
  {
    assert base.Keys == {};
    TagFromNone(base, 0);
  }

  /** One step of `TagFrom`: a qualifying key gives the tag, any other key
      passes on to the next. */
  lemma TagStep(base: map<string, Value>, i: nat)
    requires i < |TagKeys|
    ensures QualifiesAt(base, i) ==> TagFrom(base, i) == Some(Braced(Trim(base[TagKeys[i]].s)))
    ensures !QualifiesAt(base, i) ==> TagFrom(base, i) == TagFrom(base, i + 1)
  {
  }

  /** `formatTag`: the first key of `TAG_KEYS` whose value is a non-blank
      string gives the tag, braced and trimmed; no tag for an empty base or
      when no key qualifies. */
  method FormatTag(base: map<string, Value>) returns (tag: Option<string>)
    ensures tag == TagFrom(base, 0)
    ensures |base| == 0 ==> tag.None?
  {
    if |base| == 0 {
      NoTagWithoutKeys(base);
      return None;
    }
    for i := 0 to |TagKeys|
      invariant TagFrom(base, 0) == TagFrom(base, i)
    {
      var key := TagKeys[i];
      TagStep(base, i);
      if key in base && base[key].Str? {
        var trimmed := Trim(base[key].s);
        if |trimmed| > 0 {
          return Some(Braced(trimmed));
        }
      }
    }
    return None;
  }

  /** The keys `buildLogEntry` sets from the arguments. */
  function ArgKeys(args: seq<Value>): set<string>
  {
    if args == [] then {}
    else if args[0].Str? then {"msg"} + (if |args| > 1 then {"args"} else {})
    else {"args"}
  }

  /** What the file entry of a message is: `ts` and `level`, overwritten by
      the base keys, overwritten in turn by `msg` (a first argument that is a
      string) and `args` (the other arguments when there are any, or all of
      them when the first is not a string). */
  predicate EntryFor(e: map<string, Value>, level: Level, base: map<string, Value>, args: seq<Value>, ts: string)
  {
    && e.Keys == {"ts", "level"} + base.Keys + ArgKeys(args)
    && (forall k :: k in base && k !in ArgKeys(args) ==> e[k] == base[k])
    && ("ts" !in base ==> e["ts"] == Str(ts))
    && ("level" !in base ==> e["level"] == Str(LevelName(level)))
    && (args != [] && args[0].Str? ==> e["msg"] == args[0] && (|args| > 1 ==> e["args"] == Arr(args[1..])))
    && (args != [] && !args[0].Str? ==> e["args"] == Arr(args))
  }

  /** The description above fixes the entry completely. */
  lemma EntryForIsUnique(e1: map<string, Value>, e2: map<string, Value>, level: Level,
                         base: map<string, Value>, args: seq<Value>, ts: string)
    requires EntryFor(e1, level, base, args, ts) && EntryFor(e2, level, base, args, ts)
    ensures e1 == e2
  {
    forall k | k in e1.Keys
      ensures e1[k] == e2[k]
    {
      if k in ArgKeys(args) {
        assert args != [];
        if args[0].Str? {
          assert k == "msg" || (k == "args" && |args| > 1);
        }
      }
    }
  }

  /** `buildLogEntry`. `ts` is the ISO timestamp of the call. */
  method BuildLogEntry(level: Level, base: map<string, Value>, args: seq<Value>, ts: string)
    returns (entry: map<string, Value>)
    ensures EntryFor(entry, level, base, args, ts)
    ensures args == [] ==> entry.Keys == {"ts", "level"} + base.Keys
  {
    entry := map["ts" := Str(ts), "level" := Str(LevelName(level))] + base;
    if |args| == 0 {
      return;
    }
    if args[0].Str? {
      entry := entry["msg" := args[0]];
      if |args| > 1 {
        entry := entry["args" := Arr(args[1..])];
      }
      return;
    }
    entry := entry["args" := Arr(args)];
  }

  /** `LoggerOptions`; every field may be absent. */
  datatype Options = Options(level: Option<string>, base: Option<map<string, Value>>,
                             filePath: Option<string>, destination: Option<string>)

  /** The environment variables the constructor falls back to. */
  datatype Env = Env(logLevel: Option<string>, logFile: Option<string>, logDestination: Option<string>)

  /** A constructed `Logger`; its fields are set once. */
  datatype Logger = Logger(
    level: Level,
    base: map<string, Value>,
    filePath: Option<string>,
    destination: Destination,
    wantsFile: bool,
    wantsConsole: bool,
    hasFileStream: bool)

  /** The `Logger` constructor: each option falls back to its environment
      variable only when absent; a destination that does not normalise
      defaults to "both" when there is a file path and "console" otherwise. */
  function NewLogger(o: Options, env: Env): (lg: Logger)
    ensures lg.level == NormalizeLevel(o.level.Or(env.logLevel))
    ensures lg.base == o.base.GetOr(map[])
    ensures lg.filePath == NormalizeFilePath(o.filePath.Or(env.logFile))
    ensures NormalizeDestination(o.destination.Or(env.logDestination)).Some? ==>
              lg.destination == NormalizeDestination(o.destination.Or(env.logDestination)).value
    ensures NormalizeDestination(o.destination.Or(env.logDestination)).None? ==>
              lg.destination == (if lg.filePath.Some? then Both else Console)
    ensures lg.wantsFile <==> lg.destination == File || lg.destination == Both
    ensures lg.wantsConsole <==> lg.destination == Console || lg.destination == Both
    ensures lg.hasFileStream <==> lg.wantsFile && lg.filePath.Some?
  {
    var level := NormalizeLevel(o.level.Or(env.logLevel));
    var filePath := NormalizeFilePath(o.filePath.Or(env.logFile));
    var destination := NormalizeDestination(o.destination.Or(env.logDestination))
                         .GetOr(if filePath.Some? then Both else Console);
    var wantsFile := destination == File || destination == Both;
    var wantsConsole := destination == Console || destination == Both;
    Logger(level, o.base.GetOr(map[]), filePath, destination, wantsFile, wantsConsole, wantsFile && filePath.Some?)
  }

  /** Every logger writes to the console, or has a file stream, unless its
      destination is "file" and it has no path: then it writes nowhere. */
  lemma SilentOnlyForFileWithoutPath(o: Options, env: Env)
    ensures var lg := NewLogger(o, env);
      !lg.wantsConsole && !lg.hasFileStream <==> lg.destination == File && lg.filePath.None?
  {
  }

  /** `child(meta)`: a new logger whose options are the parent's level,
      base merged with `meta`, file path and destination. */
  function Child(lg: Logger, meta: map<string, Value>, env: Env): Logger
  {
    NewLogger(Options(Some(LevelName(lg.level)), Some(lg.base + meta), lg.filePath,
                      Some(DestinationName(lg.destination))), env)
  }

  /** A child keeps the parent's level and destination, sees `meta` over the
      parent's base, and keeps the parent's file path when it has one; a
      parent without a path passes none, so the child falls back to
      `LOG_FILE`. */
  lemma {:induction false} ChildInherits(lg: Logger, o: Options, meta: map<string, Value>, env: Env)
    requires lg == NewLogger(o, env)
    ensures var c := Child(lg, meta, env);
      && c.level == lg.level && c.destination == lg.destination
      && c.base.Keys == lg.base.Keys + meta.Keys
      && (forall k :: k in meta ==> c.base[k] == meta[k])
      && (forall k :: k in lg.base && k !in meta ==> c.base[k] == lg.base[k])
      && (lg.filePath.Some? ==> c.filePath == lg.filePath)
      && (lg.filePath.None? ==> c.filePath == NormalizeFilePath(env.logFile))
      && c.wantsFile == lg.wantsFile && c.wantsConsole == lg.wantsConsole
  {
    NormalizeLevelName(lg.level);
    NormalizeFilePathIdempotent(o.filePath.Or(env.logFile));
    assert NormalizeDestination(Some(DestinationName(lg.destination))) == Some(lg.destination);
  }

  /** The console method `write` picks. */
  datatype Stream = StdErr | StdWarn | StdLog

  function StreamFor(l: Level): Stream
  {
    match l
    case Error => StdErr
    case Warn => StdWarn
    case _ => StdLog
  }

  /** What one `write` call outputs: the console call (prefix followed by the
      arguments) and the entry written to the file. */
  datatype Output = ConsoleLine(stream: Stream, prefix: string, args: seq<Value>) | FileLine(entry: map<string, Value>)

  /** The console prefix: timestamp, level, then the tag and the caller
      location when present, joined by single spaces. */
  function Prefix(ts: string, level: Level, tag: Option<string>, location: Option<string>): (p: string)
    ensures ("[" + ts + "] [" + LevelName(level) + "]") <= p
  {
    "[" + ts + "] [" + LevelName(level) + "]"
    + (if tag.Some? && tag.value != [] then " " + tag.value else "")
    + (if location.Some? && location.value != [] then " " + location.value else "")
  }

  /** `write`: nothing below the configured level; otherwise a console line
      when the logger wants the console and a file entry when it has a file
      stream, in that order. The caller location is looked up for errors
      only; `callerLocation` is what that lookup would return. */
  method Write(lg: Logger, level: Level, args: seq<Value>, ts: string, callerLocation: Option<string>)
    returns (out: seq<Output>)
    ensures out == [] <==> !Admits(lg.level, level) || (!lg.wantsConsole && !lg.hasFileStream)
    ensures |out| <= 2
    ensures forall i :: 0 <= i < |out| && out[i].ConsoleLine? ==>
      && i == 0 && lg.wantsConsole
      && out[i].stream == StreamFor(level) && out[i].args == args
      && out[i].prefix == Prefix(ts, level, TagFrom(lg.base, 0), if level == Error then callerLocation else None)
    ensures forall i :: 0 <= i < |out| && out[i].FileLine? ==>
      i == |out| - 1 && lg.hasFileStream && EntryFor(out[i].entry, level, lg.base, args, ts)
    ensures Admits(lg.level, level) ==>
      && (lg.wantsConsole <==> |out| > 0 && out[0].ConsoleLine?)
      && (lg.hasFileStream <==> |out| > 0 && out[|out| - 1].FileLine?)
  {
    out := [];
    if Order(level) < Order(lg.level) {
      return;
    }
    if lg.wantsConsole {
      var location := if level == Error then callerLocation else None;
      var tag := FormatTag(lg.base);
      var prefix := Prefix(ts, level, tag, location);
      out := out + [ConsoleLine(StreamFor(level), prefix, args)];
    }
    if lg.hasFileStream {
      var entry := BuildLogEntry(level, lg.base, args, ts);
      out := out + [FileLine(entry)];
    }
  }
}
