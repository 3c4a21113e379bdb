/** The logging factories of the Monolog plugin's container configuration: which handlers
    the logger gets, at which level, which file the file handler writes, and the line format.
    The container is represented by the entries the factories read, each an input: an
    `Option` where the factory asks `has()` first, a plain value where it only calls `get()`. */
module MonologConfig {
  import opened Wrappers
  import opened PhpStrings

  /** Monolog\Logger's level constants, as Monolog defines them. */
  const INFO := 200
  const WARNING := 300

  /** The handler services `log.handlers` can return: the shared instance the container
      holds for each handler class. */
  datatype Handler = FileHandler | WebNotificationHandler | DatabaseHandler

  /** The names a writer may be configured with. */
  const WriterNames: set<string> := {"file", "screen", "database"}

  /** The `$classes` table: the handler each known writer name selects. */
  function HandlerFor(name: string): (h: Option<Handler>)
    ensures h.Some? <==> name in WriterNames
  {
    if name == "file" then Some(FileHandler)
    else if name == "screen" then Some(WebNotificationHandler)
    else if name == "database" then Some(DatabaseHandler)
    else None
  }

  /** Distinct writer names select distinct handlers. */
  lemma HandlerForInjective(a: string, b: string)
    requires HandlerFor(a).Some? && HandlerFor(a) == HandlerFor(b)
    ensures a == b
  {
  }

  /** `array_map('trim', $writerNames)`. */
  function TrimAll(names: seq<string>): (r: seq<string>)
    ensures |r| == |names|
    ensures forall i | 0 <= i < |names| :: r[i] == Trim(names[i])
  {
    seq(|names|, i requires 0 <= i < |names| => Trim(names[i]))
  }

  /** The keys of `$writers` once the loop has seen `names`: the known names among them,
      each once, in order of first occurrence. */
  function SelectedWriters(names: seq<string>): (r: seq<string>)
    ensures |r| <= |names|
    ensures forall i | 0 <= i < |r| :: r[i] in WriterNames && r[i] in names
  {
    if names == [] then []
    else
      var before := SelectedWriters(names[..|names| - 1]);
      var last := names[|names| - 1];
      if last in WriterNames && last !in before then before + [last] else before
  }

  /** `array_values($writers)` for the selected names. */
  function HandlersOf(selected: seq<string>): (hs: seq<Handler>)
    requires forall i | 0 <= i < |selected| :: selected[i] in WriterNames
    ensures |hs| == |selected|
    ensures forall i | 0 <= i < |selected| :: HandlerFor(selected[i]) == Some(hs[i])
  {
    seq(|selected|, i requires 0 <= i < |selected| => HandlerFor(selected[i]).value)
  }

  /** A PHP array with string keys, as `$writers` is: an ordered map in which a key keeps
      the position of its first insertion when it is assigned again. */
  datatype PhpArray<V> = PhpArray(keys: seq<string>, entries: map<string, V>) {

    ghost predicate Valid()
    {
      && (forall k :: k in entries <==> k in keys)
      && (forall i, j | 0 <= i < j < |keys| :: keys[i] != keys[j])
    }

    /** `$a[$k] = $v`: a new key goes last, an existing key stays where it is. */
    function Put(k: string, v: V): (a: PhpArray<V>)
      requires Valid()
      ensures a.Valid()
      ensures a.keys == if k in entries then keys else keys + [k]
      ensures a.entries == entries[k := v]
    {
      PhpArray(if k in entries then keys else keys + [k], entries[k := v])
    }

    /** array_values(): the values in key order. */
    function Values(): (vs: seq<V>)
      requires Valid()
      ensures |vs| == |keys|
      ensures forall i | 0 <= i < |keys| :: vs[i] == entries[keys[i]]
    {
      seq(|keys|, i requires 0 <= i < |keys| => entries[keys[i]])
    }
  }

  /** The `log.handlers` factory. `logWriters` is `ini.log.log_writers`, None when the
      container has no such entry. The names are trimmed, then each known one stores its
      handler in the PHP array `$writers` under its name; the result is that array's values. */
  method LogHandlers(logWriters: Option<seq<string>>) returns (handlers: seq<Handler>)
    ensures logWriters.None? ==> handlers == []
    ensures logWriters.Some? ==>
      handlers == HandlersOf(SelectedWriters(TrimAll(logWriters.value)))
  {
    if logWriters.None? {
      return [];
    }
    var names := TrimAll(logWriters.value);
    var writers: PhpArray<Handler> := PhpArray([], map[]);
    var i := 0;
    while i < |names|
      invariant 0 <= i <= |names|
      invariant WritersAfter(writers, names[..i])
    {
      var name := names[i];
      var h := HandlerFor(name);
      var next := writers;
      if h.Some? {
        next := writers.Put(name, h.value);
      }
      WritersStep(writers, names, i, next);
      writers := next;
      i := i + 1;
    }
    assert names[..|names|] == names;
    handlers := writers.Values();
    assert handlers == HandlersOf(writers.keys);
  }

  /** `$writers` once the `log.handlers` loop has seen `names`: its keys are the selected
      names and each holds the handler its name selects. */
  ghost predicate WritersAfter(writers: PhpArray<Handler>, names: seq<string>)
  {
    && writers.Valid()
    && writers.keys == SelectedWriters(names)
    && forall k | k in writers.entries :: HandlerFor(k) == Some(writers.entries[k])
  }

  /** One turn of the `log.handlers` loop keeps `WritersAfter`. */
  lemma WritersStep(writers: PhpArray<Handler>, names: seq<string>, i: nat, next: PhpArray<Handler>)
    requires i < |names| && WritersAfter(writers, names[..i])
    requires next == if HandlerFor(names[i]).Some?
      then writers.Put(names[i], HandlerFor(names[i]).value) else writers
    ensures WritersAfter(next, names[..i + 1])
  {
    SelectedWritersStep(names, i);
  }

  /** One more turn of the `log.handlers` loop. */
  lemma SelectedWritersStep(names: seq<string>, i: nat)
    requires i < |names|
    ensures SelectedWriters(names[..i + 1]) ==
      if names[i] in WriterNames && names[i] !in SelectedWriters(names[..i])
      then SelectedWriters(names[..i]) + [names[i]]
      else SelectedWriters(names[..i])
  {
    assert names[..i + 1][..i] == names[..i];
  }

  /** Every known name of the input is selected. */
  lemma {:induction false} SelectedWritersComplete(names: seq<string>, x: string)
    requires x in names && x in WriterNames
    ensures x in SelectedWriters(names)
  {
    var init := names[..|names| - 1];
    if x in init {
      SelectedWritersComplete(init, x);
    } else {
      assert names == init + [names[|names| - 1]];
    }
  }

  /** Each name is selected at most once. */
  lemma {:induction false} SelectedWritersDistinct(names: seq<string>)
    ensures forall i, j | 0 <= i < j < |SelectedWriters(names)| ::
      SelectedWriters(names)[i] != SelectedWriters(names)[j]
  {
    if names != [] {
      SelectedWritersDistinct(names[..|names| - 1]);
    }
  }

  /** The position of the first occurrence of `x` in `names`. */
  function FirstIndex(names: seq<string>, x: string): (k: nat)
    requires x in names
    ensures k < |names| && names[k] == x && x !in names[..k]
  {
    if names[0] == x then 0
    else
      assert names == [names[0]] + names[1..];
      1 + FirstIndex(names[1..], x)
  }

  lemma {:induction false} FirstIndexExtend(names: seq<string>, y: string, x: string)
    requires x in names
    ensures FirstIndex(names + [y], x) == FirstIndex(names, x)
  {
    if names[0] != x {
      assert (names + [y])[1..] == names[1..] + [y];
      assert names == [names[0]] + names[1..];
      FirstIndexExtend(names[1..], y, x);
    }
  }

  /** The selected names keep the order in which they first occur in the input. */
  lemma {:induction false} SelectedWritersInFirstOccurrenceOrder(names: seq<string>, i: nat, j: nat)
    requires i < j < |SelectedWriters(names)|
    ensures FirstIndex(names, SelectedWriters(names)[i]) < FirstIndex(names, SelectedWriters(names)[j])
  {
    var init, last := names[..|names| - 1], names[|names| - 1];
    assert names == init + [last];
    var before := SelectedWriters(init);
    var r := SelectedWriters(names);
    if j < |before| {
      SelectedWritersInFirstOccurrenceOrder(init, i, j);
      assert r[i] == before[i] && r[j] == before[j];
      FirstIndexExtend(init, last, r[i]);
      FirstIndexExtend(init, last, r[j]);
    } else {
      assert r == before + [last] && r[j] == last && r[i] == before[i];
      if last in init {
        SelectedWritersComplete(init, last);
      }
      assert last !in init;
      assert FirstIndex(names, last) == |init|;
      FirstIndexExtend(init, last, r[i]);
    }
  }

  /** A sequence without repetitions drawn from a finite set is no longer than the set. */
  lemma {:induction false} DistinctWithin(s: seq<string>, bound: set<string>)
    requires forall i | 0 <= i < |s| :: s[i] in bound
    requires forall i, j | 0 <= i < j < |s| :: s[i] != s[j]
    ensures |s| <= |bound|
  {
    if s != [] {
      forall i | 0 <= i < |s[1..]| ensures s[1..][i] in bound - {s[0]} {
        assert s[1..][i] == s[i + 1];
      }
      DistinctWithin(s[1..], bound - {s[0]});
    }
  }

  /** At most one handler per known name: no handler twice, no more than three, no more
      than names given. */
  lemma LogHandlersBounds(names: seq<string>)
    ensures var hs := HandlersOf(SelectedWriters(TrimAll(names)));
      && (forall i, j | 0 <= i < j < |hs| :: hs[i] != hs[j])
      && |hs| <= 3 && |hs| <= |names|
  {
    var sel := SelectedWriters(TrimAll(names));
    var hs := HandlersOf(sel);
    SelectedWritersDistinct(TrimAll(names));
    DistinctWithin(sel, WriterNames);
    forall i, j | 0 <= i < j < |hs| ensures hs[i] != hs[j] {
      if hs[i] == hs[j] {
        HandlerForInjective(sel[i], sel[j]);
      }
    }
  }

  /** Every handler returned is the one a configured name selects once trimmed. */
  lemma LogHandlersFromInput(names: seq<string>, i: nat)
    requires i < |HandlersOf(SelectedWriters(TrimAll(names)))|
    ensures exists k | 0 <= k < |names| ::
      HandlerFor(Trim(names[k])) == Some(HandlersOf(SelectedWriters(TrimAll(names)))[i])
  {
    var trimmed := TrimAll(names);
    var sel := SelectedWriters(trimmed);
    var k :| 0 <= k < |trimmed| && trimmed[k] == sel[i];
    assert HandlerFor(Trim(names[k])) == Some(HandlersOf(sel)[i]);
  }

  /** Every configured name that is known once trimmed contributes its handler. */
  lemma LogHandlersComplete(names: seq<string>, k: nat)
    requires k < |names| && HandlerFor(Trim(names[k])).Some?
    ensures HandlerFor(Trim(names[k])).value in HandlersOf(SelectedWriters(TrimAll(names)))
  {
    var trimmed := TrimAll(names);
    var sel := SelectedWriters(trimmed);
    assert trimmed[k] in trimmed;
    SelectedWritersComplete(trimmed, trimmed[k]);
    var i :| 0 <= i < |sel| && sel[i] == trimmed[k];
    assert HandlersOf(sel)[i] == HandlerFor(Trim(names[k])).value;
  }

  /** Writer names are trimmed before the lookup: " file " selects the file handler. */
  lemma PaddedWriterNameSelects()
    ensures HandlersOf(SelectedWriters(TrimAll([" file "]))) == [FileHandler]
  {
    assert " file " == " " + "file" + " ";
    TrimPadded(" ", "file", " ");
    var r := SelectedWriters(TrimAll([" file "]));
    assert TrimAll([" file "]) == ["file"];
    assert SelectedWriters([]) == [];
    assert ["file"][..0] == [];
  }

  /** The `log.level` factory. `configured` is `ini.log.log_level`, None when absent;
      `logConstants` are the constants defined on Piwik\Log, by name; `monologLevel` is
      Log::getMonologLevel. The level is upper-cased (twice, as written) before the lookup. */
  function LogLevel(configured: Option<string>, logConstants: map<string, int>,
                    monologLevel: int -> int): (level: int)
    ensures configured.Some? && !IsFalsy(Upper(configured.value)) && Upper(configured.value) in logConstants
      ==> level == monologLevel(logConstants[Upper(configured.value)])
    ensures !(configured.Some? && !IsFalsy(Upper(configured.value)) && Upper(configured.value) in logConstants)
      ==> level == WARNING
  {
    if configured.Some? then
      var name := Upper(configured.value);
      UpperIdempotent(configured.value);
      if !IsFalsy(name) && Upper(name) in logConstants then monologLevel(logConstants[Upper(name)])
      else WARNING
    else WARNING
  }

  /** The configured level is case-insensitive. */
  lemma LogLevelIgnoresCase(s: string, logConstants: map<string, int>, monologLevel: int -> int)
    ensures LogLevel(Some(s), logConstants, monologLevel) == LogLevel(Some(Upper(s)), logConstants, monologLevel)
  {
    UpperIdempotent(s);
  }

  /** `$c->get('path.tmp') . $relative`, with `/piwik.log` appended when that names a directory. */
  function InTmp(tmpPath: string, relative: string, isDir: string -> bool): (r: string)
    ensures StartsWith(r, tmpPath + relative)
    ensures isDir(tmpPath + relative) ==> r == tmpPath + relative + "/piwik.log"
    ensures !isDir(tmpPath + relative) ==> r == tmpPath + relative
  {
    var path := tmpPath + relative;
    if isDir(path) then path + "/piwik.log" else path
  }

  /** The `log.file.filename` factory. `loggerFilePath` is `ini.log.logger_file_path`,
      `tmpPath` is `path.tmp`, `isDir` is PHP's is_dir() on the file system. */
  method LogFileName(loggerFilePath: string, tmpPath: string, isDir: string -> bool)
    returns (logPath: string)
    ensures StartsWith(loggerFilePath, "/") ==> logPath == loggerFilePath
    ensures !StartsWith(loggerFilePath, "/") ==> StartsWith(logPath, tmpPath)
    ensures !StartsWith(loggerFilePath, "/") && StartsWith(loggerFilePath, "tmp/") ==>
      logPath == InTmp(tmpPath, loggerFilePath[3..], isDir)
    ensures !StartsWith(loggerFilePath, "/") && !StartsWith(loggerFilePath, "tmp/") && IsFalsy(loggerFilePath) ==>
      logPath == InTmp(tmpPath, "/logs/piwik.log", isDir)
    ensures !StartsWith(loggerFilePath, "/") && !StartsWith(loggerFilePath, "tmp/") && !IsFalsy(loggerFilePath) ==>
      logPath == InTmp(tmpPath, loggerFilePath, isDir)
  {
    logPath := loggerFilePath;
    if StartsWith(logPath, "/") {
      return;
    }
    if StartsWith(logPath, "tmp/") {
      logPath := logPath[|"tmp"|..];
      assert logPath[0] == '/';
    }
    if IsFalsy(logPath) {
      logPath := "/logs/piwik.log";
    }
    logPath := tmpPath + logPath;
    if isDir(logPath) {
      logPath := logPath + "/piwik.log";
    }
    assert logPath[..|tmpPath|] == tmpPath;
  }

  /** The default line format. */
  const DefaultFormat := "%level% %tag%[%datetime%] %message%"

  /** The `log.format` factory: `configured` is `ini.log.string_message_format`. */
  function LogFormat(configured: Option<string>): (format: string)
    ensures configured.Some? ==> format == configured.value
    ensures configured.None? ==> format == DefaultFormat
  {
    configured.GetOr(DefaultFormat)
  }
}
