/**
 * The control panel's run state (`bot_state`) and the request handlers that act
 * on it one at a time: start, stop, pause/resume, the log view and the
 * configuration update. The configuration file is an abstract map; reading it
 * adds the proxy defaults, and writing it hands back the map that would be saved.
 */
module Control {
  import opened Wrappers
  import opened PyText
  import opened Json
  import opened LogRing

  type Config = map<string, JsonValue>

  const INVITATION_CODES: string := "invitation_codes"
  const WAIT_BETWEEN_CODES: string := "wait_between_codes"
  const WAIT_BETWEEN_LOOPS: string := "wait_between_loops"
  const LOOPS_PER_BIG_CYCLE: string := "loops_per_big_cycle"
  const USE_PROXY: string := "use_proxy"
  const PROXY_LIST: string := "proxy_list"

  /** The keys `update_config` looks at, in the order it handles them; any other key is ignored. */
  const UPDATE_ORDER: seq<string> :=
    [INVITATION_CODES, WAIT_BETWEEN_CODES, WAIT_BETWEEN_LOOPS, LOOPS_PER_BIG_CYCLE, USE_PROXY, PROXY_LIST]

  const DEFAULT_LOG_LIMIT: int := 20

  /**
   * The defaulting step of `load_config`: a configuration without proxy settings
   * gets `use_proxy = False` and an empty `proxy_list`; whatever is present is
   * kept as it is. Only the two proxy keys are ever added.
   */
  function WithDefaults(c: Config): (r: Config)
    ensures r.Keys == c.Keys + {USE_PROXY, PROXY_LIST}
    ensures forall k :: k in c ==> r[k] == c[k]
    ensures USE_PROXY !in c ==> r[USE_PROXY] == JBool(false)
    ensures PROXY_LIST !in c ==> r[PROXY_LIST] == JArray([])
  {
    var c1 := if USE_PROXY in c then c else c[USE_PROXY := JBool(false)];
    if PROXY_LIST in c1 then c1 else c1[PROXY_LIST := JArray([])]
  }

  /** Loading a configuration that was loaded (and saved) before adds nothing. */
  lemma WithDefaultsIdempotent(c: Config)
    ensures WithDefaults(WithDefaults(c)) == WithDefaults(c)
  {
  }

  /** A list of strings as JSON. */
  function JsonStrings(items: seq<string>): (r: seq<JsonValue>)
    ensures |r| == |items|
    ensures forall i :: 0 <= i < |items| ==> r[i] == JStr(items[i])
  {
    if items == [] then [] else [JStr(items[0])] + JsonStrings(items[1..])
  }

  /**
   * The normalisation of `invitation_codes` and `proxy_list`: a string becomes
   * the list of its comma-separated pieces, each trimmed, blank ones dropped;
   * a value of any other type is stored as given.
   */
  function ListField(v: JsonValue): (r: JsonValue)
    ensures v.JStr? ==> r.JArray? && |r.items| == |CommaList(v.s)|
    ensures v.JStr? ==> forall i :: 0 <= i < |r.items| ==> r.items[i] == JStr(CommaList(v.s)[i])
    ensures !v.JStr? ==> r == v
  {
    if v.JStr? then JArray(JsonStrings(CommaList(v.s))) else v
  }

  /** The stored form of a list field is never a string, so storing it again changes nothing. */
  lemma ListFieldStable(v: JsonValue)
    ensures ListField(ListField(v)) == ListField(v)
  {
  }

  /**
   * Codes typed as one comma-separated line come back as exactly the codes that
   * were typed, provided each is non-blank, trimmed and comma-free.
   */
  lemma ListFieldOfJoined(items: seq<string>)
    requires forall i :: 0 <= i < |items| ==> IsCleanItem(items[i])
    ensures ListField(JStr(Join(items, ','))) == JArray(JsonStrings(items))
  {
    CommaListJoin(items);
  }

  predicate IsTimingKey(key: string) {
    key == WAIT_BETWEEN_CODES || key == WAIT_BETWEEN_LOOPS || key == LOOPS_PER_BIG_CYCLE
  }

  /** `int()` accepts the request's value for this key, or the key needs no conversion. */
  predicate KeyConverts(data: Config, key: string) {
    IsTimingKey(key) && key in data ==> PyInt(data[key]).Some?
  }

  /** A request is accepted unless a timing value it carries is refused by `int()`. */
  predicate Converts(data: Config) {
    KeyConverts(data, WAIT_BETWEEN_CODES) && KeyConverts(data, WAIT_BETWEEN_LOOPS) && KeyConverts(data, LOOPS_PER_BIG_CYCLE)
  }

  /** The value a recognised request key is stored as. */
  function Stored(key: string, v: JsonValue): JsonValue
    requires IsTimingKey(key) ==> PyInt(v).Some?
  {
    if IsTimingKey(key) then JInt(PyInt(v).value)
    else if key == USE_PROXY then JBool(Truthy(v))
    else if key == INVITATION_CODES || key == PROXY_LIST then ListField(v)
    else v
  }

  /** One `if key in data: config[key] = ...` step. */
  function Put(config: Config, data: Config, key: string): Config
    requires KeyConverts(data, key)
  {
    if key in data then config[key := Stored(key, data[key])] else config
  }

  /** The steps for `keys`, taken in order. */
  function PutAll(config: Config, data: Config, keys: seq<string>): Config
    requires forall i :: 0 <= i < |keys| ==> KeyConverts(data, keys[i])
    decreases |keys|
  {
    if keys == [] then config else PutAll(Put(config, data, keys[0]), data, keys[1..])
  }

  /**
   * Every key named both in the request and in `keys` with its converted value,
   * every other key as it was.
   */
  function Overwritten(config: Config, data: Config, keys: seq<string>): Config
    requires forall k :: k in keys ==> KeyConverts(data, k)
  {
    map k | k in config.Keys + (set k | k in data.Keys && k in keys) ::
      if k in data && k in keys then assert KeyConverts(data, k); Stored(k, data[k]) else config[k]
  }

  /** Taking the first step, then overwriting with the rest, overwrites with all the keys. */
  lemma OverwrittenStep(config: Config, data: Config, keys: seq<string>)
    requires keys != [] && forall k :: k in keys ==> KeyConverts(data, k)
    ensures Overwritten(Put(config, data, keys[0]), data, keys[1..]) == Overwritten(config, data, keys)
  {
    var r := Overwritten(Put(config, data, keys[0]), data, keys[1..]);
    var m := Overwritten(config, data, keys);
    forall k
      ensures k in r <==> k in m
      ensures k in r ==> r[k] == m[k]
    {
      assert k in keys <==> k == keys[0] || k in keys[1..];
    }
    assert r == m;
  }

  /** Taking the steps one by one gives `Overwritten`, whatever the order of the steps. */
  lemma {:induction false} PutAllOverwritesNamed(config: Config, data: Config, keys: seq<string>)
    requires forall i :: 0 <= i < |keys| ==> KeyConverts(data, keys[i])
    ensures PutAll(config, data, keys) == Overwritten(config, data, keys)
    decreases |keys|
  {
    if keys != [] {
      PutAllOverwritesNamed(Put(config, data, keys[0]), data, keys[1..]);
      OverwrittenStep(config, data, keys);
    }
  }

  /**
   * The configuration an accepted update saves, as one map: the recognised keys
   * named in the request carry their converted values, every other key keeps
   * its old value, and unrecognised request keys are not added.
   */
  function Merged(config: Config, data: Config): (r: Config)
    requires Converts(data)
  {
    Overwritten(config, data, UPDATE_ORDER)
  }

  /** The six steps of `update_config` produce `Merged`. */
  lemma UpdateStepsMerge(config: Config, data: Config)
    requires Converts(data)
    ensures Put(Put(Put(Put(Put(Put(config, data, INVITATION_CODES), data, WAIT_BETWEEN_CODES),
              data, WAIT_BETWEEN_LOOPS), data, LOOPS_PER_BIG_CYCLE), data, USE_PROXY), data, PROXY_LIST)
            == Merged(config, data)
  {
    assert forall i :: 0 <= i < |UPDATE_ORDER| ==> KeyConverts(data, UPDATE_ORDER[i]);
    PutAllOverwritesNamed(config, data, UPDATE_ORDER);
    PutAllSix(config, data, UPDATE_ORDER);
  }

  /** One step off the front of `PutAll`. */
  lemma PutAllFront(config: Config, data: Config, keys: seq<string>, n: nat)
    requires n < |keys| && forall i :: 0 <= i < |keys| ==> KeyConverts(data, keys[i])
    ensures PutAll(config, data, keys[n..]) == PutAll(Put(config, data, keys[n]), data, keys[n + 1..])
  {
    assert keys[n..][1..] == keys[n + 1..];
  }

  /** `PutAll` over six keys is the six steps written out. */
  lemma PutAllSix(config: Config, data: Config, keys: seq<string>)
    requires |keys| == 6 && forall i :: 0 <= i < |keys| ==> KeyConverts(data, keys[i])
    ensures PutAll(config, data, keys) ==
              Put(Put(Put(Put(Put(Put(config, data, keys[0]), data, keys[1]), data, keys[2]), data, keys[3]),
                  data, keys[4]), data, keys[5])
  {
    var c1 := Put(config, data, keys[0]);
    var c2 := Put(c1, data, keys[1]);
    var c3 := Put(c2, data, keys[2]);
    var c4 := Put(c3, data, keys[3]);
    var c5 := Put(c4, data, keys[4]);
    assert keys[0..] == keys;
    PutAllFront(config, data, keys, 0);
    PutAllFront(c1, data, keys, 1);
    PutAllFront(c2, data, keys, 2);
    PutAllFront(c3, data, keys, 3);
    PutAllFront(c4, data, keys, 4);
    PutAllFront(c5, data, keys, 5);
    assert keys[6..] == [];
  }

  /** Keys a request does not name (or that `update_config` ignores) keep their values. */
  lemma MergedKeepsUnnamed(config: Config, data: Config, k: string)
    requires Converts(data) && k in config && (k !in data || k !in UPDATE_ORDER)
    ensures k in Merged(config, data) && Merged(config, data)[k] == config[k]
  {
  }

  /** Sending the same update twice saves the same configuration as sending it once. */
  lemma MergedIdempotent(config: Config, data: Config)
    requires Converts(data)
    ensures Merged(Merged(config, data), data) == Merged(config, data)
  {
  }

  /** `config[key] = int(data[key])` when the request names `key`; false when `int()` refuses the value. */
  method SetTiming(config: Config, data: Config, key: string) returns (ok: bool, config': Config)
    requires IsTimingKey(key)
    ensures ok <==> KeyConverts(data, key)
    ensures ok ==> config' == Put(config, data, key)
    ensures !ok ==> key in data && PyInt(data[key]).None?
  {
    config' := config;
    ok := true;
    if key in data {
      var n := PyInt(data[key]);
      if n.None? {
        return false, config;
      }
      config' := config[key := JInt(n.value)];
    }
  }

  /**
   * The body of the `try` in `update_config`, key by key on the loaded
   * configuration: either the first timing key whose value `int()` refuses,
   * or the updated configuration.
   */
  method ApplyRequest(loaded: Config, data: Config) returns (failed: Option<string>, config: Config)
    ensures failed.None? <==> Converts(data)
    ensures failed.None? ==> config == Merged(loaded, data)
    ensures failed.Some? ==> IsTimingKey(failed.value) && failed.value in data && PyInt(data[failed.value]).None?
    ensures failed == Some(WAIT_BETWEEN_LOOPS) ==> KeyConverts(data, WAIT_BETWEEN_CODES)
    ensures failed == Some(LOOPS_PER_BIG_CYCLE) ==> KeyConverts(data, WAIT_BETWEEN_CODES) && KeyConverts(data, WAIT_BETWEEN_LOOPS)
  {
    config := loaded;
    if INVITATION_CODES in data {
      config := config[INVITATION_CODES := ListField(data[INVITATION_CODES])];
    }
    ghost var c1 := config;
    assert c1 == Put(loaded, data, INVITATION_CODES);
    var ok;
    ok, config := SetTiming(config, data, WAIT_BETWEEN_CODES);
    if !ok {
      return Some(WAIT_BETWEEN_CODES), config;
    }
    ghost var c2 := config;
    ok, config := SetTiming(config, data, WAIT_BETWEEN_LOOPS);
    if !ok {
      return Some(WAIT_BETWEEN_LOOPS), config;
    }
    ghost var c3 := config;
    ok, config := SetTiming(config, data, LOOPS_PER_BIG_CYCLE);
    if !ok {
      return Some(LOOPS_PER_BIG_CYCLE), config;
    }
    ghost var c4 := config;
    if USE_PROXY in data {
      config := config[USE_PROXY := JBool(Truthy(data[USE_PROXY]))];
    }
    ghost var c5 := config;
    assert c5 == Put(c4, data, USE_PROXY);
    if PROXY_LIST in data {
      config := config[PROXY_LIST := ListField(data[PROXY_LIST])];
    }
    assert config == Put(c5, data, PROXY_LIST);
    UpdateStepsMerge(loaded, data);
    failed := None;
  }

  /**
   * `request.args.get('limit', 20, type=int)`: the query value through `int()`;
   * 20 when there is none or `int()` refuses it.
   */
  function RequestedLimit(arg: Option<string>): (r: int)
    ensures arg.None? || PyInt(JStr(arg.value)).None? ==> r == DEFAULT_LOG_LIMIT
    ensures arg.Some? && PyInt(JStr(arg.value)).Some? ==> r == PyInt(JStr(arg.value)).value
  {
    if arg.Some? && PyInt(JStr(arg.value)).Some? then PyInt(JStr(arg.value)).value else DEFAULT_LOG_LIMIT
  }

  /** A limit written as a plain number is read as that number. */
  lemma RequestedLimitOfNumber(n: nat)
    ensures RequestedLimit(Some(NatToString(n))) == n
  {
    PyIntOfNatString(n);
  }

  /** What a handler answers. */
  datatype Reply =
    | Answer(success: bool, message: string)
    /** The successful answer of the pause toggle, which also reports the new flag. */
    | PauseAnswer(message: string, paused: bool)
    /** A configuration without the key raises `KeyError`, which the handler does not catch. */
    | KeyMissing(key: string)
    /**
     * `update_config` caught the error `int()` raised for the value of this key,
     * and answers that error's message (`str(e)`, which quotes the refused value).
     * The key stands for that message: the message text itself is not modelled.
     */
    | ConversionFailed(key: string)

  /** `bot_state`: the flags, counters and activity log the panel shows. */
  class BotState {
    var running: bool
    var paused: bool
    var currentLoop: int
    var totalSuccess: int
    var totalAttempts: int
    var currentBigCycle: int
    var loopsInCycle: int
    var lastActivity: Option<string>
    var logs: seq<LogEntry>
    /** Every entry ever logged, oldest first; `logs` is its newest part. */
    ghost var history: seq<LogEntry>

    /**
     * The log is the newest thirty entries of everything logged (all of it while
     * there are fewer), `last_activity` is the timestamp of the newest one (none
     * before anything was logged), and there are never more successes than
     * attempts.
     */
    ghost predicate Valid()
      reads this`logs, this`history, this`lastActivity, this`totalSuccess, this`totalAttempts
    {
      && logs == KeepLast(history, LOG_CAPACITY)
      && lastActivity == (if logs == [] then None else Some(logs[|logs| - 1].timestamp))
      && 0 <= totalSuccess <= totalAttempts
    }

    /** The flags and the loop position: everything but the log and the two totals. */
    function Phase(): (bool, bool, int, int, int)
      reads this`running, this`paused, this`currentLoop, this`currentBigCycle, this`loopsInCycle
    {
      (running, paused, currentLoop, currentBigCycle, loopsInCycle)
    }

    /** The state at import time. */
    constructor ()
      ensures Valid()
      ensures !running && !paused
      ensures currentLoop == 0 && totalSuccess == 0 && totalAttempts == 0
      ensures currentBigCycle == 1 && loopsInCycle == 0
      ensures lastActivity == None && logs == [] && history == []
    {
      running := false;
      paused := false;
      currentLoop := 0;
      totalSuccess := 0;
      totalAttempts := 0;
      currentBigCycle := 1;
      loopsInCycle := 0;
      lastActivity := None;
      logs := [];
      history := [];
      assert KeepLast<LogEntry>([], LOG_CAPACITY) == [];
    }

    /** `add_log`: appends one entry, keeps the newest thirty, and records its time. */
    method AddLog(message: string, level: Level, timestamp: string)
      requires Valid()
      modifies this
      ensures Valid()
      ensures logs == KeepLast(old(logs) + [LogEntry(timestamp, message, level)], LOG_CAPACITY)
      ensures logs[|logs| - 1] == LogEntry(timestamp, message, level)
      ensures history == old(history) + [LogEntry(timestamp, message, level)]
      ensures lastActivity == Some(timestamp)
      ensures running == old(running) && paused == old(paused)
      ensures currentLoop == old(currentLoop) && totalSuccess == old(totalSuccess) && totalAttempts == old(totalAttempts)
      ensures currentBigCycle == old(currentBigCycle) && loopsInCycle == old(loopsInCycle)
    {
      var entry := LogEntry(timestamp, message, level);
      var appended := logs + [entry];
      var kept := appended;
      if |appended| > LOG_CAPACITY {
        kept := appended[|appended| - LOG_CAPACITY..];
      }
      assert kept[|kept| - 1] == entry;
      KeepLastAppend(history, [entry], LOG_CAPACITY);
      history := history + [entry];
      logs := kept;
      lastActivity := Some(timestamp);
    }

    /**
     * `start_bot`: refused while running and when no codes are configured; otherwise
     * it raises `running`, clears `paused` and the per-run counters, and logs the
     * start. The big-cycle fields keep their values from the previous run.
     */
    method StartBot(stored: Config, now: string) returns (reply: Reply)
      requires Valid()
      modifies this
      ensures Valid()
      ensures old(running) ==> reply == Answer(false, "Bot is already running")
      ensures var config := WithDefaults(stored);
                !old(running) && INVITATION_CODES !in config ==> reply == KeyMissing(INVITATION_CODES)
      ensures var config := WithDefaults(stored);
                !old(running) && INVITATION_CODES in config && !Truthy(config[INVITATION_CODES]) ==>
                reply == Answer(false, "No invitation codes configured")
      ensures var config := WithDefaults(stored);
                reply.Answer? && reply.success <==>
                !old(running) && INVITATION_CODES in config && Truthy(config[INVITATION_CODES])
      ensures !(reply.Answer? && reply.success) ==> unchanged(this)
      ensures reply.Answer? && reply.success ==>
                && reply.message == "Bot started successfully"
                && running && !paused
                && currentLoop == 0 && totalSuccess == 0 && totalAttempts == 0
                && currentBigCycle == old(currentBigCycle) && loopsInCycle == old(loopsInCycle)
                && logs == KeepLast(old(logs) + [LogEntry(now, "Starting bot...", Info)], LOG_CAPACITY)
    {
      if running {
        return Answer(false, "Bot is already running");
      }
      var config := WithDefaults(stored);
      if INVITATION_CODES !in config {
        return KeyMissing(INVITATION_CODES);
      }
      if !Truthy(config[INVITATION_CODES]) {
        return Answer(false, "No invitation codes configured");
      }
      Launch(now);
      reply := Answer(true, "Bot started successfully");
    }

    /** The accepting branch of `start_bot`. */
    method Launch(now: string)
      requires Valid()
      modifies this
      ensures Valid()
      ensures running && !paused
      ensures currentLoop == 0 && totalSuccess == 0 && totalAttempts == 0
      ensures currentBigCycle == old(currentBigCycle) && loopsInCycle == old(loopsInCycle)
      ensures logs == KeepLast(old(logs) + [LogEntry(now, "Starting bot...", Info)], LOG_CAPACITY)
    {
      running := true;
      paused := false;
      currentLoop := 0;
      totalSuccess := 0;
      totalAttempts := 0;
      AddLog("Starting bot...", Info, now);
    }

    /** `stop_bot`: refused when not running; otherwise clears both flags and logs it. */
    method StopBot(now: string) returns (reply: Reply)
      requires Valid()
      modifies this
      ensures Valid()
      ensures !old(running) ==> reply == Answer(false, "Bot is not running") && unchanged(this)
      ensures old(running) ==>
                && reply == Answer(true, "Bot stopped")
                && !running && !paused
                && currentLoop == old(currentLoop) && totalSuccess == old(totalSuccess) && totalAttempts == old(totalAttempts)
                && currentBigCycle == old(currentBigCycle) && loopsInCycle == old(loopsInCycle)
                && logs == KeepLast(old(logs) + [LogEntry(now, "Stopping bot...", Warning)], LOG_CAPACITY)
    {
      if !running {
        return Answer(false, "Bot is not running");
      }
      running := false;
      paused := false;
      AddLog("Stopping bot...", Warning, now);
      reply := Answer(true, "Bot stopped");
    }

    /**
     * `pause_bot`: refused when not running; otherwise flips `paused`, reports the
     * new value and logs which way it went. It never touches `running`.
     */
    method PauseBot(now: string) returns (reply: Reply)
      requires Valid()
      modifies this
      ensures Valid()
      ensures running == old(running)
      ensures !old(running) ==> reply == Answer(false, "Bot is not running") && unchanged(this)
      ensures old(running) ==>
                var message := if paused then "Bot paused" else "Bot resumed";
                && paused == !old(paused)
                && reply == PauseAnswer(message, paused)
                && currentLoop == old(currentLoop) && totalSuccess == old(totalSuccess) && totalAttempts == old(totalAttempts)
                && currentBigCycle == old(currentBigCycle) && loopsInCycle == old(loopsInCycle)
                && logs == KeepLast(old(logs) + [LogEntry(now, message, Warning)], LOG_CAPACITY)
    {
      if !running {
        return Answer(false, "Bot is not running");
      }
      paused := !paused;
      var message := if paused then "Bot paused" else "Bot resumed";
      AddLog(message, Warning, now);
      reply := PauseAnswer(message, paused);
    }

    /** Two pause requests in a row leave both flags as they were. */
    method PauseTwice(first: string, second: string) returns (r1: Reply, r2: Reply)
      requires Valid()
      modifies this
      ensures Valid()
      ensures running == old(running) && paused == old(paused)
      ensures r1.PauseAnswer? <==> old(running)
      ensures r2.PauseAnswer? <==> old(running)
      ensures r1.PauseAnswer? ==> r1.paused == !old(paused) && r2.paused == old(paused)
    {
      r1 := PauseBot(first);
      r2 := PauseBot(second);
    }

    /**
     * `get_logs`: `logs[-limit:]`, always a suffix of the log; the newest `limit`
     * entries for a positive limit (20 when none or no number is given), the
     * whole log for 0, and all but the oldest `-limit` for a negative one.
     */
    function GetLogs(arg: Option<string>): (r: seq<LogEntry>)
      reads this
      ensures |r| <= |logs| && r == logs[|logs| - |r|..]
      ensures arg.None? ==> |r| == if |logs| < DEFAULT_LOG_LIMIT then |logs| else DEFAULT_LOG_LIMIT
      ensures RequestedLimit(arg) > 0 ==> |r| == if RequestedLimit(arg) < |logs| then RequestedLimit(arg) else |logs|
      ensures RequestedLimit(arg) == 0 ==> r == logs
      ensures RequestedLimit(arg) < 0 ==> |r| == if |logs| + RequestedLimit(arg) > 0 then |logs| + RequestedLimit(arg) else 0
    {
      TailSlice(logs, RequestedLimit(arg))
    }

    /**
     * `update_config`: every recognised key of the request overwrites the loaded
     * configuration; when a timing value cannot be converted nothing is saved and
     * nothing is logged, and the answer names the first timing key, in the order
     * the handler converts them, whose value `int()` refuses. `saved` is the map
     * written back to the file.
     */
    method UpdateConfig(stored: Config, data: Config, now: string) returns (reply: Reply, saved: Option<Config>)
      requires Valid()
      modifies this
      ensures Valid()
      ensures saved.Some? <==> Converts(data)
      ensures saved.Some? ==> saved.value == Merged(WithDefaults(stored), data)
      ensures saved.Some? ==> reply == Answer(true, "Configuration updated successfully")
      ensures saved.Some? ==> logs == KeepLast(old(logs) + [LogEntry(now, "Configuration updated", Success)], LOG_CAPACITY)
      ensures saved.None? ==>
                && reply.ConversionFailed? && IsTimingKey(reply.key) && reply.key in data && PyInt(data[reply.key]).None?
                && (reply.key == WAIT_BETWEEN_LOOPS ==> KeyConverts(data, WAIT_BETWEEN_CODES))
                && (reply.key == LOOPS_PER_BIG_CYCLE ==> KeyConverts(data, WAIT_BETWEEN_CODES) && KeyConverts(data, WAIT_BETWEEN_LOOPS))
      ensures saved.None? ==> unchanged(this)
      ensures running == old(running) && paused == old(paused)
      ensures currentLoop == old(currentLoop) && totalSuccess == old(totalSuccess) && totalAttempts == old(totalAttempts)
      ensures currentBigCycle == old(currentBigCycle) && loopsInCycle == old(loopsInCycle)
    {
      var failed: Option<string>;
      var config: Config;
      failed, config := ApplyRequest(WithDefaults(stored), data);
      if failed.Some? {
        return ConversionFailed(failed.value), None;
      }
      saved := Some(config);
      AddLog("Configuration updated", Success, now);
      reply := Answer(true, "Configuration updated successfully");
    }

    /** A limit given as a plain number `n` shows the newest `n` entries (all of them for 0). */
    lemma GetLogsOfNumber(n: nat)
      ensures GetLogs(Some(NatToString(n))) == TailSlice(logs, n)
    {
      RequestedLimitOfNumber(n);
    }
  }
}
