/**
 * The scheduler of the control panel (`run_bot`): a loop of passes over the
 * configured invitation codes, one referral cycle per code, with a pause
 * between passes and big-cycle bookkeeping.
 *
 * What other threads do is an input here. Every check point that reads the
 * `running`/`paused` flags consumes the next element of `probes` (the loop
 * test and the pause test at the top of a pass share one); once the probes run
 * out, the bot reads as stopped. Each reload of the configuration file is
 * `config(k)`, where `k` counts the loads (0 is the load before the loop), and
 * the `n`-th referral cycle of the run succeeds when `outcome(n)` holds. The
 * `k`-th entry the run logs carries the timestamp `clock(k)`.
 */
module Scheduler {
  import opened Wrappers
  import opened PyText
  import opened LogRing
  import opened Schedule
  import opened Control

  /** What one check point sees. */
  datatype Flags = Flags(running: bool, paused: bool)

  function Probe(probes: seq<Flags>, i: nat): Flags {
    if i < |probes| then probes[i] else Flags(false, false)
  }

  /** The index of the check before code `j` (from 0) of a pass whose first check is `pi`. */
  function CodeCheck(pi: nat, j: nat): nat {
    pi + 2 * j
  }

  /** The negation of `not bot_state['running'] or bot_state['paused']`. */
  predicate Proceeds(f: Flags) {
    f.running && !f.paused
  }

  /** The fields of one reload of the configuration file that the scheduler uses. */
  datatype LoopConfig = LoopConfig(
    codes: seq<string>,
    waitBetweenCodes: int,
    waitBetweenLoops: int,
    loopsPerBigCycle: int,
    useProxy: bool,
    proxyList: seq<string>)

  /** The lines the scheduler logs, before they are formatted and stamped. */
  datatype Line =
    | BotInitialized
    | CodesLoaded(codes: nat)
    | ProxyEnabled(proxies: nat)
    | ProxyDisabled
    | NoCodesConfigured
    | ConnectedToTelegram
    | StartingLoop(loop: nat, codes: nat)
    | ProcessingCode(idx: nat, codes: nat, code: string)
    | CodeSucceeded(idx: nat, codes: nat)
    | CodeFailed(idx: nat, codes: nat)
    | LoopCompleted(loop: nat, succeeded: nat, codes: nat)
    | BigCycleCompleted(bigCycle: nat, total: nat)
    | WaitingBeforeNextLoop(seconds: int)
    | StoppedByUserLine
    | BotError(error: string)
    | Disconnected

  /** The message text `add_log` receives for a line. */
  function Text(l: Line): string {
    match l
    case BotInitialized => "Bot initialized successfully"
    case CodesLoaded(n) => "Loaded " + NatToString(n) + " invitation codes"
    case ProxyEnabled(n) => "Proxy enabled with " + NatToString(n) + " proxies"
    case ProxyDisabled => "Proxy disabled"
    case NoCodesConfigured => "No invitation codes configured!"
    case ConnectedToTelegram => "Connected to Telegram"
    case StartingLoop(loop, n) => "Starting Loop " + NatToString(loop) + " - Processing " + NatToString(n) + " codes"
    case ProcessingCode(idx, n, code) => "Processing code " + NatToString(idx) + "/" + NatToString(n) + ": " + code
    case CodeSucceeded(idx, n) => "Code " + NatToString(idx) + "/" + NatToString(n) + " successful!"
    case CodeFailed(idx, n) => "Code " + NatToString(idx) + "/" + NatToString(n) + " failed"
    case LoopCompleted(loop, k, n) =>
      "Loop " + NatToString(loop) + " completed: " + NatToString(k) + "/" + NatToString(n) + " successful"
    case BigCycleCompleted(b, total) => "BIG CYCLE " + NatToString(b) + " COMPLETED! Total: " + NatToString(total) + " successful"
    case WaitingBeforeNextLoop(w) => "Waiting " + IntToString(w) + " seconds before next loop..."
    case StoppedByUserLine => "Bot stopped by user"
    case BotError(e) => "Bot error: " + e
    case Disconnected => "Bot disconnected"
  }

  /** The level `add_log` receives for a line. */
  function LevelOf(l: Line): Level {
    match l
    case BotInitialized | ProxyEnabled(_) | ConnectedToTelegram | CodeSucceeded(_, _)
      | LoopCompleted(_, _, _) | BigCycleCompleted(_, _) => Success
    case NoCodesConfigured | CodeFailed(_, _) | BotError(_) => Error
    case StoppedByUserLine => Warning
    case _ => Info
  }

  /** The log entries `add_log` creates for `lines`, the `k`-th stamped `clock(k)`. */
  function Stamp(lines: seq<Line>, clock: nat -> string): (r: seq<LogEntry>)
    ensures |r| == |lines|
  {
    seq(|lines|, k requires 0 <= k < |lines| => LogEntry(clock(k), Text(lines[k]), LevelOf(lines[k])))
  }

  /** One pass of the outer loop that got past the reload. */
  datatype PassReport = PassReport(
    loop: nat,            // `loop_count` during the pass
    bigCycle: nat,        // `big_cycle_count` when the pass started
    config: LoopConfig,   // the reload the pass used
    results: seq<bool>,   // the outcome of each code processed, in order
    successTotal: nat,    // `total_success_count` at the end of the pass
    runningAfter: bool,   // `running` as read before the pause between passes
    waited: bool,         // whether the pause between passes was entered
    turn: nat,            // the check of the loop test that started the pass
    slept: nat,           // the seconds the pause between passes slept
    next: nat)            // the check of the loop test after the pass

  /** How a run ended. */
  datatype RunEnd =
    | NoCodes               // refused before connecting: the initial load has no codes
    | SetupFailed(error: string)
    | StoppedByUser
    | Crashed(error: string)

  const ZERO_MODULO: string := "integer modulo by zero"

  function CountTrue(s: seq<bool>): (r: nat)
    ensures r <= |s|
    decreases |s|
  {
    if s == [] then 0 else CountTrue(s[..|s| - 1]) + (if s[|s| - 1] then 1 else 0)
  }

  lemma {:induction false} CountTrueAppendOne(s: seq<bool>, b: bool)
    ensures CountTrue(s + [b]) == CountTrue(s) + (if b then 1 else 0)
  {
    assert (s + [b])[..|s|] == s;
  }

  /** The big-cycle counter after a pass: one more exactly when the pass closed a big cycle. */
  function NextBigCycle(r: PassReport): nat
    requires r.config.loopsPerBigCycle != 0
  {
    r.bigCycle + (if CompletesBigCycle(r.loop, r.config.loopsPerBigCycle) then 1 else 0)
  }

  /** Every code outcome of the run, pass after pass. */
  function AllResults(reports: seq<PassReport>): seq<bool>
    decreases |reports|
  {
    if reports == [] then [] else AllResults(reports[..|reports| - 1]) + reports[|reports| - 1].results
  }

  function CodeLines(idx: nat, n: nat, code: string, ok: bool): seq<Line> {
    [ProcessingCode(idx, n, code), if ok then CodeSucceeded(idx, n) else CodeFailed(idx, n)]
  }

  /** The lines logged for the first `|results|` codes of a pass. */
  function CodeMessages(codes: seq<string>, results: seq<bool>): seq<Line>
    requires |results| <= |codes|
    decreases |results|
  {
    if results == [] then []
    else
      var j := |results| - 1;
      CodeMessages(codes, results[..j]) + CodeLines(j + 1, |codes|, codes[j], results[j])
  }

  /** What a pass logs after its codes: the tally, the closed big cycle and the announced pause. */
  function PassClosing(
    loop: nat, n: nat, succeeded: nat, perBig: int, bigCycle: nat, total: nat, waited: bool, seconds: int): seq<Line>
    requires perBig != 0
  {
    [LoopCompleted(loop, succeeded, n)]
    + (if CompletesBigCycle(loop, perBig) then [BigCycleCompleted(bigCycle, total)] else [])
    + (if waited then [WaitingBeforeNextLoop(seconds)] else [])
  }

  /** Everything one pass logs. */
  function PassMessages(r: PassReport): seq<Line>
    requires PassShaped(r)
  {
    [StartingLoop(r.loop, |r.config.codes|)]
    + CodeMessages(r.config.codes, r.results)
    + PassClosing(r.loop, |r.config.codes|, CountTrue(r.results), r.config.loopsPerBigCycle,
                  r.bigCycle, r.successTotal, r.waited, r.config.waitBetweenLoops)
  }

  predicate PassShaped(r: PassReport) {
    r.config.loopsPerBigCycle != 0 && |r.results| <= |r.config.codes|
  }

  function PassesMessages(reports: seq<PassReport>): seq<Line>
    requires Shaped(reports)
    decreases |reports|
  {
    if reports == [] then []
    else PassesMessages(reports[..|reports| - 1]) + PassMessages(reports[|reports| - 1])
  }

  function StartupMessages(c: LoopConfig): seq<Line> {
    [ BotInitialized,
      CodesLoaded(|c.codes|),
      if c.useProxy && c.proxyList != [] then ProxyEnabled(|c.proxyList|) else ProxyDisabled ]
  }

  /** Every pass of the run has a non-zero cycle length and processed a prefix of its codes. */
  predicate Shaped(reports: seq<PassReport>)
    decreases |reports|
  {
    reports == [] || (Shaped(reports[..|reports| - 1]) && PassShaped(reports[|reports| - 1]))
  }

  /**
   * The counters of a pass run right after the passes `prior`: it is loop
   * `|prior| + 1` and used the `(|prior| + 1)`-th reload; it is in the big
   * cycle its predecessor left (the first pass in big cycle 1); the running
   * total of successes is carried over from the earlier passes; and the pause
   * after it is entered exactly when `running` was still read and the next
   * loop does not start a big cycle.
   */
  ghost predicate Follows(prior: seq<PassReport>, r: PassReport, config: nat -> LoopConfig)
    requires Shaped(prior)
  {
    && PassShaped(r)
    && r.loop == |prior| + 1 && r.config == config(|prior| + 1)
    && r.bigCycle == BigCycleAfter(prior)
    && r.successTotal == CountTrue(AllResults(prior)) + CountTrue(r.results)
    && (r.waited <==> r.runningAfter && !SkipsWait(r.loop + 1, r.config.loopsPerBigCycle))
  }

  /** Every pass of the run follows the ones before it. */
  ghost predicate WellNumbered(reports: seq<PassReport>, config: nat -> LoopConfig)
    decreases |reports|
  {
    reports == [] ||
    (var prior := reports[..|reports| - 1];
     WellNumbered(prior, config) && Shaped(prior) && Follows(prior, reports[|reports| - 1], config))
  }

  /**
   * The check that reads `running` after the codes of a pass whose first code
   * check is `pi`, when `processed` of its `n` codes were processed: right after
   * the check that ended the codes early, or after the last code, which is not
   * followed by the read before the sleep between codes.
   */
  function AfterCodes(pi: nat, processed: nat, n: nat): nat {
    if processed < n then pi + 2 * processed + 1
    else if n == 0 then pi
    else pi + 2 * n - 1
  }

  /**
   * The checks of the pause between passes, from check `pi`: none when the
   * pause is not entered; otherwise one per second slept, each seeing the bot
   * running and unpaused, and, when the pause ends early, the check that saw a
   * stop or a pause. `next` is the check after them.
   */
  ghost predicate WaitProbes(probes: seq<Flags>, pi: nat, waited: bool, seconds: int, slept: nat, next: nat) {
    if !waited then slept == 0 && next == pi
    else
      && (slept <= seconds || slept == 0)
      && (forall k :: pi <= k < pi + slept ==> Proceeds(Probe(probes, k)))
      && (slept < seconds ==> !Proceeds(Probe(probes, pi + slept)) && next == pi + slept + 1)
      && (slept >= seconds ==> next == pi + slept)
  }

  /**
   * How the checks of one pass went: its loop test saw the bot running and
   * unpaused; every processed code was preceded by a check that saw the same;
   * a pass that processed fewer codes than it had ended at a check that did not;
   * `runningAfter` is what the read after the codes saw; and the pause consumed
   * the checks `WaitProbes` describes.
   */
  ghost predicate PassProbes(probes: seq<Flags>, r: PassReport) {
    var first := r.turn + 1;
    var after := AfterCodes(first, |r.results|, |r.config.codes|);
    && Proceeds(Probe(probes, r.turn))
    && (forall j :: 0 <= j < |r.results| ==> Proceeds(Probe(probes, CodeCheck(first, j))))
    && (|r.results| < |r.config.codes| ==> !Proceeds(Probe(probes, CodeCheck(first, |r.results|))))
    && r.runningAfter == Probe(probes, after).running
    && WaitProbes(probes, after + 1, r.waited, r.config.waitBetweenLoops, r.slept, r.next)
  }

  /** Every loop test in `from..to` saw the bot running and paused: those turns only slept. */
  ghost predicate PausedTurns(probes: seq<Flags>, from: nat, to: nat) {
    from <= to && forall k :: from <= k < to ==> Probe(probes, k).running && Probe(probes, k).paused
  }

  /** The check of the first loop test after the passes `reports`, the first of all being `pi0`. */
  function ResumeAt(pi0: nat, reports: seq<PassReport>): nat {
    if reports == [] then pi0 else reports[|reports| - 1].next
  }

  /**
   * The passes `reports` are the ones the checks from `pi0` on produce: each
   * pass is started by the first loop test after the previous pass that saw
   * the bot running and unpaused, all loop tests between them saw it paused,
   * and within the pass the checks went as `PassProbes` says.
   */
  ghost predicate Driven(probes: seq<Flags>, pi0: nat, reports: seq<PassReport>)
    decreases |reports|
  {
    reports == [] ||
    (var prior := reports[..|reports| - 1];
     var last := reports[|reports| - 1];
     Driven(probes, pi0, prior) && PausedTurns(probes, ResumeAt(pi0, prior), last.turn) && PassProbes(probes, last))
  }

  /**
   * The outer loop after the passes `reports` stands at the loop test `pi`: the
   * passes are driven by the checks, and every loop test since the last pass
   * saw the bot paused. After a crash, `pi` is the loop test of the turn that
   * crashed, which saw the bot running and unpaused.
   */
  ghost predicate Steered(probes: seq<Flags>, pi0: nat, reports: seq<PassReport>, pi: nat, crashed: bool) {
    && Driven(probes, pi0, reports)
    && PausedTurns(probes, ResumeAt(pi0, reports), pi)
    && (crashed ==> Proceeds(Probe(probes, pi)))
  }

  /** The facts `ProcessCodes` and `FinishPass` establish about their checks make up `PassProbes`. */
  lemma {:induction false} PassProbesOf(probes: seq<Flags>, r: PassReport, first: nat, after: nat)
    requires first == r.turn + 1 && Proceeds(Probe(probes, r.turn))
    requires forall j :: 0 <= j < |r.results| ==> Proceeds(Probe(probes, CodeCheck(first, j)))
    requires |r.results| < |r.config.codes| ==>
               !Proceeds(Probe(probes, CodeCheck(first, |r.results|))) && after == first + 2 * |r.results| + 1
    requires |r.results| == |r.config.codes| ==>
               after == if r.config.codes == [] then first else first + 2 * |r.config.codes| - 1
    requires |r.results| <= |r.config.codes|
    requires r.runningAfter == Probe(probes, after).running
    requires WaitProbes(probes, after + 1, r.waited, r.config.waitBetweenLoops, r.slept, r.next)
    ensures PassProbes(probes, r)
  {
    assert after == AfterCodes(first, |r.results|, |r.config.codes|);
  }

  lemma {:induction false} DrivenAppend(probes: seq<Flags>, pi0: nat, reports: seq<PassReport>, r: PassReport)
    requires Steered(probes, pi0, reports, r.turn, false) && PassProbes(probes, r)
    ensures Steered(probes, pi0, reports + [r], r.next, false)
  {
    assert (reports + [r])[..|reports|] == reports;
  }

  /** The loop tests of the passes come after `pi0`, and after each pass comes a later check. */
  lemma {:induction false} DrivenOrder(probes: seq<Flags>, pi0: nat, reports: seq<PassReport>)
    requires Driven(probes, pi0, reports)
    ensures pi0 <= ResumeAt(pi0, reports)
    ensures reports != [] ==> pi0 <= reports[|reports| - 1].turn < ResumeAt(pi0, reports)
    decreases |reports|
  {
    if reports != [] {
      var prior := reports[..|reports| - 1];
      DrivenOrder(probes, pi0, prior);
    }
  }

  /**
   * A run in which no check from `pi0` on sees the bot running and unpaused
   * performs no pass and does not crash: passes and reloads happen only after
   * such a check.
   */
  lemma NoPassWithoutProceed(probes: seq<Flags>, pi0: nat, reports: seq<PassReport>, pi: nat, crashed: bool)
    requires Steered(probes, pi0, reports, pi, crashed)
    requires forall k :: pi0 <= k ==> !Proceeds(Probe(probes, k))
    ensures reports == [] && !crashed
  {
    DrivenOrder(probes, pi0, reports);
  }

  /** The big-cycle counter after a run of passes. */
  function BigCycleAfter(reports: seq<PassReport>): nat
    requires reports != [] ==> reports[|reports| - 1].config.loopsPerBigCycle != 0
  {
    if reports == [] then 1 else NextBigCycle(reports[|reports| - 1])
  }

  /** The log of the run in terms of its passes and its end. */
  function RunMessages(initial: LoopConfig, reports: seq<PassReport>, ending: RunEnd): seq<Line>
    requires Shaped(reports)
  {
    match ending
    case NoCodes => [NoCodesConfigured]
    case SetupFailed(e) => StartupMessages(initial) + [BotError(e), Disconnected]
    case StoppedByUser => StartupMessages(initial) + [ConnectedToTelegram] + PassesMessages(reports) + [StoppedByUserLine, Disconnected]
    case Crashed(e) => StartupMessages(initial) + [ConnectedToTelegram] + PassesMessages(reports) + [BotError(e), Disconnected]
  }

  /** `add_log` for one message of the run, keeping the log equal to the stamped messages so far. */
  method Emit(st: BotState, ghost base: seq<LogEntry>, msgs: seq<Line>, m: Line, clock: nat -> string)
    returns (msgs': seq<Line>)
    requires st.Valid() && st.history == base + Stamp(msgs, clock)
    modifies st
    ensures st.Valid() && msgs' == msgs + [m]
    ensures st.history == base + Stamp(msgs', clock)
    ensures st.Phase() == old(st.Phase())
    ensures st.totalSuccess == old(st.totalSuccess) && st.totalAttempts == old(st.totalAttempts)
  {
    var entry := LogEntry(clock(|msgs|), Text(m), LevelOf(m));
    st.AddLog(Text(m), LevelOf(m), clock(|msgs|));
    msgs' := msgs + [m];
    assert msgs'[..|msgs'| - 1] == msgs;
    assert Stamp(msgs', clock) == Stamp(msgs, clock) + [entry];
    SeqAssoc(base, Stamp(msgs, clock), [entry]);
  }

  /**
   * The pause between passes: `for _ in range(seconds)`, each second preceded by
   * a check. It ends at the first check that sees a stop or a pause (a pause
   * ends the wait, it does not suspend it) and otherwise after `seconds` checks.
   */
  method WaitBetweenLoops(probes: seq<Flags>, pi: nat, seconds: int) returns (slept: nat, pj: nat)
    ensures slept <= seconds || slept == 0
    ensures forall k :: pi <= k < pi + slept ==> Proceeds(Probe(probes, k))
    ensures slept < seconds ==> !Proceeds(Probe(probes, pi + slept)) && pj == pi + slept + 1
    ensures slept >= seconds ==> pj == pi + slept
  {
    slept := 0;
    pj := pi;
    while slept < seconds
      invariant slept <= seconds || slept == 0
      invariant pj == pi + slept
      invariant forall k :: pi <= k < pi + slept ==> Proceeds(Probe(probes, k))
      decreases seconds - slept
    {
      if !Proceeds(Probe(probes, pj)) {
        pj := pj + 1;
        return;
      }
      pj := pj + 1;
      slept := slept + 1;
    }
  }

  /**
   * The codes of one pass (`for idx, code in enumerate(codes, 1)`). Before each
   * code a check must see the bot running and not paused, or the pass processes
   * no further codes; after each code but the last, `running` is read once more
   * to decide on the pause between codes. Each processed code is one attempt;
   * a success also raises the run's success total, which `total_success` shows.
   */
  method ProcessCodes(
    st: BotState, codes: seq<string>, ghost base: seq<LogEntry>, msgs: seq<Line>, clock: nat -> string,
    probes: seq<Flags>, pi: nat, outcome: nat -> bool, done: nat, count: nat)
    returns (results: seq<bool>, msgs': seq<Line>, pj: nat)
    requires st.Valid() && st.history == base + Stamp(msgs, clock)
    requires count <= done <= st.totalAttempts
    requires count > 0 ==> st.totalSuccess == count
    modifies st
    ensures st.Valid() && st.history == base + Stamp(msgs', clock)
    ensures |results| <= |codes|
    ensures results == Outcomes(outcome, done, |results|)
    ensures forall j :: 0 <= j < |results| ==> Proceeds(Probe(probes, CodeCheck(pi, j)))
    ensures |results| < |codes| ==> !Proceeds(Probe(probes, CodeCheck(pi, |results|))) && pj == pi + 2 * |results| + 1
    ensures |results| == |codes| ==> pj == if codes == [] then pi else pi + 2 * |codes| - 1
    ensures msgs' == msgs + CodeMessages(codes, results)
    ensures st.totalAttempts == old(st.totalAttempts) + |results|
    ensures st.totalSuccess == if count + CountTrue(results) > 0 then count + CountTrue(results) else old(st.totalSuccess)
    ensures st.Phase() == old(st.Phase())
  {
    results := [];
    msgs' := msgs;
    pj := pi;
    var succeeded := count;
    while |results| < |codes|
      invariant st.Valid() && st.history == base + Stamp(msgs', clock)
      invariant |results| <= |codes|
      invariant results == Outcomes(outcome, done, |results|)
      invariant forall j :: 0 <= j < |results| ==> Proceeds(Probe(probes, CodeCheck(pi, j)))
      invariant pj == if results == [] then pi else if |results| == |codes| then pi + 2 * |results| - 1 else pi + 2 * |results|
      invariant msgs' == msgs + CodeMessages(codes, results)
      invariant succeeded == count + CountTrue(results)
      invariant st.totalAttempts == old(st.totalAttempts) + |results|
      invariant succeeded == count ==> st.totalSuccess == old(st.totalSuccess)
      invariant succeeded > count ==> st.totalSuccess == succeeded
      invariant st.Phase() == old(st.Phase())
      decreases |codes| - |results|
    {
      if !Proceeds(Probe(probes, pj)) {
        pj := pj + 1;
        break;
      }
      ExtendChecks(results, probes, pi);
      pj := pj + 1;
      results, msgs', succeeded := NextCode(st, codes, base, msgs, msgs', clock, outcome, done, count, old(st.totalSuccess), results, succeeded);
      if |results| < |codes| {
        // `running` is read to decide on the sleep between codes.
        pj := pj + 1;
      }
    }
  }

  /**
   * The code after the first `|results|` of a pass: its log lines, one more
   * attempt and, on a success, the raised success total.
   */
  method NextCode(
    st: BotState, codes: seq<string>, ghost base: seq<LogEntry>, msgs: seq<Line>, msgsNow: seq<Line>,
    clock: nat -> string, outcome: nat -> bool, done: nat, count: nat, ghost success0: int,
    results: seq<bool>, succeeded: nat)
    returns (results': seq<bool>, msgs': seq<Line>, succeeded': nat)
    requires |results| < |codes|
    requires st.Valid() && st.history == base + Stamp(msgsNow, clock)
    requires msgsNow == msgs + CodeMessages(codes, results)
    requires results == Outcomes(outcome, done, |results|)
    requires succeeded == count + CountTrue(results) && succeeded <= st.totalAttempts
    requires succeeded == count ==> st.totalSuccess == success0
    requires succeeded > count ==> st.totalSuccess == succeeded
    modifies st
    ensures st.Valid() && st.history == base + Stamp(msgs', clock)
    ensures |results'| == |results| + 1 && results' == Outcomes(outcome, done, |results'|)
    ensures msgs' == msgs + CodeMessages(codes, results')
    ensures succeeded' == count + CountTrue(results')
    ensures st.totalAttempts == old(st.totalAttempts) + 1
    ensures succeeded' == count ==> st.totalSuccess == success0
    ensures succeeded' > count ==> st.totalSuccess == succeeded'
    ensures st.Phase() == old(st.Phase())
  {
    var ok := outcome(done + |results|);
    msgs', succeeded' := ProcessOne(st, base, msgsNow, clock, |results| + 1, |codes|, codes[|results|], ok, succeeded);
    CountTrueAppendOne(results, ok);
    CodeMessagesStep(codes, results, ok);
    SeqAssoc(msgs, CodeMessages(codes, results), CodeLines(|results| + 1, |codes|, codes[|results|], ok));
    OutcomesNext(outcome, done, |results|);
    results' := results + [ok];
  }

  /** One code: its two log lines, one more attempt and, on success, the raised total. */
  method ProcessOne(
    st: BotState, ghost base: seq<LogEntry>, msgs: seq<Line>, clock: nat -> string,
    idx: nat, n: nat, code: string, ok: bool, succeeded: nat)
    returns (msgs': seq<Line>, succeeded': nat)
    requires st.Valid() && st.history == base + Stamp(msgs, clock)
    requires succeeded <= st.totalAttempts
    modifies st
    ensures st.Valid() && st.history == base + Stamp(msgs', clock)
    ensures msgs' == msgs + CodeLines(idx, n, code, ok)
    ensures succeeded' == succeeded + (if ok then 1 else 0)
    ensures st.totalAttempts == old(st.totalAttempts) + 1
    ensures st.totalSuccess == if ok then succeeded' else old(st.totalSuccess)
    ensures st.Phase() == old(st.Phase())
  {
    var lines := CodeLines(idx, n, code, ok);
    msgs' := Emit(st, base, msgs, lines[0], clock);
    st.totalAttempts := st.totalAttempts + 1;
    succeeded' := succeeded;
    if ok {
      succeeded' := succeeded + 1;
      st.totalSuccess := succeeded';
    }
    msgs' := Emit(st, base, msgs', lines[1], clock);
    assert [lines[0]] + [lines[1]] == lines;
    SeqAssoc(msgs, [lines[0]], [lines[1]]);
  }

  lemma {:induction false} SeqAssoc<T>(a: seq<T>, b: seq<T>, c: seq<T>)
    ensures a + (b + c) == (a + b) + c
  {
  }

  /** The outcomes of the `n` codes processed next after the first `from` of the run. */
  function Outcomes(outcome: nat -> bool, from: nat, n: nat): (r: seq<bool>)
    ensures |r| == n
  {
    seq(n, j requires 0 <= j => outcome(from + j))
  }

  lemma {:induction false} OutcomesNext(outcome: nat -> bool, from: nat, n: nat)
    ensures Outcomes(outcome, from, n) + [outcome(from + n)] == Outcomes(outcome, from, n + 1)
  {
  }

  lemma {:induction false} OutcomesSplit(outcome: nat -> bool, n: nat, m: nat)
    ensures Outcomes(outcome, 0, n) + Outcomes(outcome, n, m) == Outcomes(outcome, 0, n + m)
  {
    var left := Outcomes(outcome, 0, n) + Outcomes(outcome, n, m);
    forall j | 0 <= j < n + m
      ensures left[j] == Outcomes(outcome, 0, n + m)[j]
    {
      if j >= n {
        assert left[j] == Outcomes(outcome, n, m)[j - n];
      }
    }
  }

  lemma {:induction false} ExtendChecks(results: seq<bool>, probes: seq<Flags>, pi: nat)
    requires forall j :: 0 <= j < |results| ==> Proceeds(Probe(probes, CodeCheck(pi, j)))
    requires Proceeds(Probe(probes, CodeCheck(pi, |results|)))
    ensures forall j :: 0 <= j < |results| + 1 ==> Proceeds(Probe(probes, CodeCheck(pi, j)))
  {
  }

  lemma {:induction false} CodeMessagesStep(codes: seq<string>, results: seq<bool>, ok: bool)
    requires |results| < |codes|
    ensures CodeMessages(codes, results + [ok]) ==
              CodeMessages(codes, results) + CodeLines(|results| + 1, |codes|, codes[|results|], ok)
  {
    assert (results + [ok])[..|results|] == results;
  }

  lemma {:induction false} CountTrueAppend(a: seq<bool>, b: seq<bool>)
    ensures CountTrue(a + b) == CountTrue(a) + CountTrue(b)
    decreases |b|
  {
    if b == [] {
      assert a + b == a;
    } else {
      var front := b[..|b| - 1];
      assert (a + b)[..|a + b| - 1] == a + front;
      assert b[..|b| - 1] == front;
      CountTrueAppend(a, front);
    }
  }

  lemma {:induction false} AllResultsAppend(reports: seq<PassReport>, r: PassReport)
    ensures AllResults(reports + [r]) == AllResults(reports) + r.results
  {
    assert (reports + [r])[..|reports|] == reports;
  }

  lemma {:induction false} PassesMessagesAppend(reports: seq<PassReport>, r: PassReport)
    requires Shaped(reports) && PassShaped(r)
    ensures Shaped(reports + [r])
    ensures PassesMessages(reports + [r]) == PassesMessages(reports) + PassMessages(r)
  {
    assert (reports + [r])[..|reports|] == reports;
  }

  lemma {:induction false} WellNumberedAppend(reports: seq<PassReport>, r: PassReport, config: nat -> LoopConfig)
    requires WellNumbered(reports, config) && Shaped(reports) && Follows(reports, r, config)
    ensures WellNumbered(reports + [r], config) && Shaped(reports + [r])
  {
    assert (reports + [r])[..|reports|] == reports;
  }

  /**
   * What a well-numbered run says of its pass `i`: it is loop `i + 1` and used
   * the `(i + 1)`-th reload, with a non-zero cycle length; the first pass is in
   * big cycle 1 and every later one in the big cycle its predecessor left; its
   * success total counts the successes of passes `0..i`; and the pause after it
   * was entered exactly when `running` was read and loop `i + 2` does not open
   * a big cycle.
   */
  lemma {:induction false} PassFacts(reports: seq<PassReport>, config: nat -> LoopConfig, i: nat)
    requires WellNumbered(reports, config) && Shaped(reports) && i < |reports|
    ensures PassShaped(reports[i])
    ensures reports[i].loop == i + 1 && reports[i].config == config(i + 1)
    ensures i == 0 ==> reports[i].bigCycle == 1
    ensures i > 0 ==> PassShaped(reports[i - 1]) && reports[i].bigCycle == NextBigCycle(reports[i - 1])
    ensures reports[i].successTotal == CountTrue(AllResults(reports[..i + 1]))
    ensures reports[i].waited <==> reports[i].runningAfter && !SkipsWait(i + 2, reports[i].config.loopsPerBigCycle)
    decreases |reports|
  {
    var prior := reports[..|reports| - 1];
    var last := reports[|reports| - 1];
    assert reports == prior + [last];
    if i == |reports| - 1 {
      assert reports[..i + 1] == reports;
      AllResultsAppend(prior, last);
      CountTrueAppend(AllResults(prior), last.results);
      if i > 0 {
        assert prior[i - 1] == reports[i - 1];
      }
    } else {
      PassFacts(prior, config, i);
      assert prior[i] == reports[i];
      assert prior[..i + 1] == reports[..i + 1];
      if i > 0 {
        assert prior[i - 1] == reports[i - 1];
      }
    }
  }

  /**
   * While every reload has the same positive cycle length `perBig`, pass `i`
   * (loop `i + 1`) runs in big cycle `1 + i / perBig`: the counter rises exactly
   * after loops `perBig`, `2 * perBig`, ...
   */
  lemma {:induction false} BigCycleOfPass(reports: seq<PassReport>, config: nat -> LoopConfig, perBig: int, i: nat)
    requires WellNumbered(reports, config) && Shaped(reports) && perBig >= 1
    requires forall k :: 1 <= k <= |reports| ==> config(k).loopsPerBigCycle == perBig
    requires i < |reports|
    ensures reports[i].bigCycle == 1 + i / perBig
    decreases i
  {
    PassFacts(reports, config, i);
    if i > 0 {
      BigCycleOfPass(reports, config, perBig, i - 1);
      PassFacts(reports, config, i - 1);
      QuotientStep(i, perBig);
    }
  }

  /** Under the same fixed cycle length, the big-cycle counter after `n` passes is `1 + n / perBig`. */
  lemma {:induction false} BigCycleAfterRun(reports: seq<PassReport>, config: nat -> LoopConfig, perBig: int)
    requires WellNumbered(reports, config) && Shaped(reports) && perBig >= 1
    requires forall k :: 1 <= k <= |reports| ==> config(k).loopsPerBigCycle == perBig
    ensures reports != [] ==> PassShaped(reports[|reports| - 1])
    ensures BigCycleAfter(reports) == 1 + |reports| / perBig
  {
    if reports != [] {
      var n := |reports|;
      var last := reports[n - 1];
      BigCycleOfPass(reports, config, perBig, n - 1);
      PassFacts(reports, config, n - 1);
      assert last.loop == n && last.config.loopsPerBigCycle == perBig;
      assert last.bigCycle == 1 + (n - 1) / perBig;
      assert CompletesBigCycle(n, perBig) <==> n % perBig == 0;
      QuotientStep(n, perBig);
      assert BigCycleAfter(reports) == last.bigCycle + (if n % perBig == 0 then 1 else 0);
    }
  }

  /**
   * One pass from the `Starting Loop` line to the end of the pause between
   * passes, for a reload whose `loops_per_big_cycle` is not zero. The pass sets
   * `loops_in_cycle` to the position of the loop in its big cycle, processes the
   * codes, closes a big cycle when the loop number is a multiple of the cycle
   * length, and pauses after reading `running` unless the next loop opens a big
   * cycle.
   */
  method RunPass(
    st: BotState, cfg: LoopConfig, loop: nat, big: nat, ghost base: seq<LogEntry>, msgs: seq<Line>, clock: nat -> string,
    probes: seq<Flags>, pi: nat, outcome: nat -> bool, done: nat, count: nat)
    returns (report: PassReport, msgs': seq<Line>, pj: nat)
    requires cfg.loopsPerBigCycle != 0
    requires Proceeds(Probe(probes, pi))
    requires st.Valid() && st.history == base + Stamp(msgs, clock)
    requires count <= done <= st.totalAttempts
    requires count > 0 ==> st.totalSuccess == count
    modifies st
    ensures st.Valid() && st.history == base + Stamp(msgs', clock)
    ensures PassShaped(report) && pj > pi
    ensures report.turn == pi && report.next == pj && PassProbes(probes, report)
    ensures report.loop == loop && report.bigCycle == big && report.config == cfg
    ensures report.results == Outcomes(outcome, done, |report.results|)
    ensures report.successTotal == count + CountTrue(report.results)
    ensures report.waited <==> report.runningAfter && !SkipsWait(loop + 1, cfg.loopsPerBigCycle)
    ensures msgs' == msgs + PassMessages(report)
    ensures st.totalAttempts == old(st.totalAttempts) + |report.results|
    ensures report.successTotal > 0 ==> st.totalSuccess == report.successTotal
    ensures report.successTotal == 0 ==> st.totalSuccess == old(st.totalSuccess)
    ensures st.loopsInCycle == LoopsInCycle(loop, cfg.loopsPerBigCycle)
    ensures st.running == old(st.running) && st.paused == old(st.paused)
    ensures st.currentLoop == old(st.currentLoop) && st.currentBigCycle == old(st.currentBigCycle)
  {
    var n := |cfg.codes|;
    var perBig := cfg.loopsPerBigCycle;
    st.loopsInCycle := LoopsInCycle(loop, perBig);
    msgs' := Emit(st, base, msgs, StartingLoop(loop, n), clock);
    var results;
    results, msgs', pj := ProcessCodes(st, cfg.codes, base, msgs', clock, probes, pi + 1, outcome, done, count);
    ghost var after := pj;
    var total := count + CountTrue(results);
    var runningAfter, waited, slept;
    runningAfter, waited, slept, msgs', pj := FinishPass(st, cfg, loop, big, CountTrue(results), total, base, msgs', clock, probes, pj);
    report := PassReport(loop, big, cfg, results, total, runningAfter, waited, pi, slept, pj);
    PassProbesOf(probes, report, pi + 1, after);
    var codeLines := CodeMessages(cfg.codes, results);
    SeqAssoc(msgs, [StartingLoop(loop, n)], codeLines);
    SeqAssoc(msgs, [StartingLoop(loop, n)] + codeLines,
             PassClosing(loop, n, CountTrue(results), perBig, big, total, waited, cfg.waitBetweenLoops));
  }

  /**
   * The end of a pass: the tally line, the big-cycle line when the loop number
   * is a multiple of the cycle length, then the read of `running` and, unless
   * the next loop opens a big cycle, the announced and interruptible pause.
   */
  method FinishPass(
    st: BotState, cfg: LoopConfig, loop: nat, big: nat, succeeded: nat, total: nat,
    ghost base: seq<LogEntry>, msgs: seq<Line>, clock: nat -> string, probes: seq<Flags>, pi: nat)
    returns (runningAfter: bool, waited: bool, slept: nat, msgs': seq<Line>, pj: nat)
    requires cfg.loopsPerBigCycle != 0
    requires st.Valid() && st.history == base + Stamp(msgs, clock)
    modifies st
    ensures st.Valid() && st.history == base + Stamp(msgs', clock)
    ensures runningAfter == Probe(probes, pi).running && pj > pi
    ensures WaitProbes(probes, pi + 1, waited, cfg.waitBetweenLoops, slept, pj)
    ensures waited <==> runningAfter && !SkipsWait(loop + 1, cfg.loopsPerBigCycle)
    ensures msgs' == msgs + PassClosing(loop, |cfg.codes|, succeeded, cfg.loopsPerBigCycle, big, total, waited, cfg.waitBetweenLoops)
    ensures st.Phase() == old(st.Phase())
    ensures st.totalSuccess == old(st.totalSuccess) && st.totalAttempts == old(st.totalAttempts)
  {
    var perBig := cfg.loopsPerBigCycle;
    msgs' := Emit(st, base, msgs, LoopCompleted(loop, succeeded, |cfg.codes|), clock);
    var closing: seq<Line> := [];
    if CompletesBigCycle(loop, perBig) {
      closing := [BigCycleCompleted(big, total)];
      msgs' := Emit(st, base, msgs', closing[0], clock);
    }
    // `loop_count += 1` (and `big_cycle_count += 1` with the line above) happen in the caller.
    runningAfter := Probe(probes, pi).running;
    pj := pi + 1;
    waited := runningAfter && !SkipsWait(loop + 1, perBig);
    var pause: seq<Line> := [];
    slept := 0;
    if waited {
      pause := [WaitingBeforeNextLoop(cfg.waitBetweenLoops)];
      msgs' := Emit(st, base, msgs', pause[0], clock);
      slept, pj := WaitBetweenLoops(probes, pj, cfg.waitBetweenLoops);
    }
    assert msgs' == msgs + ([LoopCompleted(loop, succeeded, |cfg.codes|)] + closing + pause);
  }

  /**
   * The passes of a connected run so far: well numbered, logged after the lines
   * before the loop, and the `n`-th code processed took `outcome(n)`.
   */
  ghost predicate RunShape(
    config: nat -> LoopConfig, msgs0: seq<Line>, outcome: nat -> bool, msgs: seq<Line>, reports: seq<PassReport>)
  {
    && WellNumbered(reports, config) && Shaped(reports)
    && msgs == msgs0 + PassesMessages(reports)
    && AllResults(reports) == Outcomes(outcome, 0, |AllResults(reports)|)
  }

  /**
   * What the state shows of a run so far: the log history holds what was
   * written before it and then `msgs`; `total_attempts` grew by one per code;
   * `total_success` shows the run's successes once there is one.
   */
  ghost predicate Shows(
    st: BotState, base: seq<LogEntry>, clock: nat -> string, attempts0: int, success0: int,
    msgs: seq<Line>, reports: seq<PassReport>)
    reads st`history, st`totalAttempts, st`totalSuccess
  {
    && st.history == base + Stamp(msgs, clock)
    && st.totalAttempts == attempts0 + |AllResults(reports)|
    && (CountTrue(AllResults(reports)) > 0 ==> st.totalSuccess == CountTrue(AllResults(reports)))
    && (CountTrue(AllResults(reports)) == 0 ==> st.totalSuccess == success0)
  }

  /**
   * The state of the outer loop after the passes `reports`, which logged `msgs`
   * after `msgs0`: the shape of the run, what the bot state shows of it, the
   * flags as they were before the loop, and, after a crash, the reload that
   * caused it.
   */
  ghost predicate Progress(
    st: BotState, config: nat -> LoopConfig, base: seq<LogEntry>, msgs0: seq<Line>, clock: nat -> string,
    outcome: nat -> bool, attempts0: int, success0: int, before: (bool, bool, int, int, int),
    msgs: seq<Line>, reports: seq<PassReport>, done: nat, count: nat, crashed: bool)
    reads st
  {
    && st.Valid() && RunShape(config, msgs0, outcome, msgs, reports)
    && Shows(st, base, clock, attempts0, success0, msgs, reports)
    && done == |AllResults(reports)| && count == CountTrue(AllResults(reports))
    && 0 <= attempts0
    && st.running == before.0 && st.paused == before.1
    && Published(st, reports, crashed, before)
    && (crashed ==> config(|reports| + 1).loopsPerBigCycle == 0)
  }

  /**
   * The outer loop of a connected run. Each turn reads the flags once: stopped
   * ends the loop, paused skips the turn, and otherwise `Turn` runs.
   */
  method RunLoop(
    st: BotState, config: nat -> LoopConfig, ghost base: seq<LogEntry>, msgs0: seq<Line>, clock: nat -> string,
    probes: seq<Flags>, pi0: nat, outcome: nat -> bool)
    returns (reports: seq<PassReport>, crashed: bool, msgs: seq<Line>, pEnd: nat)
    requires st.Valid() && st.history == base + Stamp(msgs0, clock)
    modifies st
    ensures Progress(st, config, base, msgs0, clock, outcome, old(st.totalAttempts), old(st.totalSuccess), old(st.Phase()),
                     msgs, reports, |AllResults(reports)|, CountTrue(AllResults(reports)), crashed)
    ensures Steered(probes, pi0, reports, pEnd, crashed)
    ensures !crashed ==> !Probe(probes, pEnd).running
  {
    ghost var attempts0 := st.totalAttempts;
    ghost var success0 := st.totalSuccess;
    ghost var before := st.Phase();
    ProgressStart(st, config, base, msgs0, clock, outcome);
    reports := [];
    crashed := false;
    msgs := msgs0;
    pEnd := pi0;
    var done: nat := 0;
    var count: nat := 0;
    while Probe(probes, pEnd).running
      invariant Progress(st, config, base, msgs0, clock, outcome, attempts0, success0, before, msgs, reports, done, count, false)
      invariant Steered(probes, pi0, reports, pEnd, false)
      decreases |probes| - pEnd
    {
      reports, crashed, msgs, pEnd, done, count :=
        Turn(st, config, base, msgs0, clock, probes, pi0, pEnd, outcome, attempts0, success0, before, msgs, reports, done, count);
      if crashed {
        return;
      }
    }
  }

  lemma {:induction false} ProgressStart(
    st: BotState, config: nat -> LoopConfig, base: seq<LogEntry>, msgs0: seq<Line>, clock: nat -> string, outcome: nat -> bool)
    requires st.Valid() && st.history == base + Stamp(msgs0, clock)
    ensures Progress(st, config, base, msgs0, clock, outcome, st.totalAttempts, st.totalSuccess, st.Phase(), msgs0, [], 0, 0, false)
  {
    assert msgs0 + [] == msgs0;
  }

  /**
   * One turn of the outer loop, after its test (check `pi`) saw the bot
   * running: a turn that finds the bot paused only sleeps; any other turn is a
   * `Reload`.
   */
  method Turn(
    st: BotState, config: nat -> LoopConfig, ghost base: seq<LogEntry>, msgs0: seq<Line>, clock: nat -> string,
    probes: seq<Flags>, ghost pi0: nat, pi: nat, outcome: nat -> bool, ghost attempts0: int, ghost success0: int,
    ghost before: (bool, bool, int, int, int), msgs: seq<Line>, reports: seq<PassReport>, done: nat, count: nat)
    returns (reports': seq<PassReport>, crashed: bool, msgs': seq<Line>, pj: nat, done': nat, count': nat)
    requires Probe(probes, pi).running && Steered(probes, pi0, reports, pi, false)
    requires Progress(st, config, base, msgs0, clock, outcome, attempts0, success0, before, msgs, reports, done, count, false)
    modifies st
    ensures Progress(st, config, base, msgs0, clock, outcome, attempts0, success0, before, msgs', reports', done', count', crashed)
    ensures Steered(probes, pi0, reports', pj, crashed)
    ensures Probe(probes, pi).paused ==> !crashed && reports' == reports && msgs' == msgs && pj == pi + 1
    ensures !Probe(probes, pi).paused ==> (crashed <==> config(|reports| + 1).loopsPerBigCycle == 0)
    ensures !Probe(probes, pi).paused && !crashed ==>
              |reports'| == |reports| + 1 && reports'[..|reports|] == reports && reports'[|reports|].turn == pi
    ensures crashed ==> reports' == reports && pj == pi
    ensures !crashed ==> pj > pi
  {
    if Probe(probes, pi).paused {
      reports', crashed, msgs', pj, done', count' := reports, false, msgs, pi + 1, done, count;
      assert PausedTurns(probes, ResumeAt(pi0, reports), pi + 1);
      return;
    }
    reports', crashed, msgs', pj, done', count' :=
      Reload(st, config, base, msgs0, clock, probes, pi, outcome, attempts0, success0, before, msgs, reports, done, count);
    if !crashed {
      assert reports' == reports + [reports'[|reports|]];
      DrivenAppend(probes, pi0, reports, reports'[|reports|]);
    }
  }

  /**
   * A turn that got past the pause test: the reload, the publication of the
   * loop and big-cycle numbers, and the pass. A reload whose
   * `loops_per_big_cycle` is zero raises `ZeroDivisionError` at the modulo,
   * right after the two numbers were published, and the turn ends there. `pi`
   * is the check of the turn's loop test.
   */
  method Reload(
    st: BotState, config: nat -> LoopConfig, ghost base: seq<LogEntry>, msgs0: seq<Line>, clock: nat -> string,
    probes: seq<Flags>, pi: nat, outcome: nat -> bool, ghost attempts0: int, ghost success0: int,
    ghost before: (bool, bool, int, int, int), msgs: seq<Line>, reports: seq<PassReport>, done: nat, count: nat)
    returns (reports': seq<PassReport>, crashed: bool, msgs': seq<Line>, pj: nat, done': nat, count': nat)
    requires Proceeds(Probe(probes, pi))
    requires Progress(st, config, base, msgs0, clock, outcome, attempts0, success0, before, msgs, reports, done, count, false)
    modifies st
    ensures Progress(st, config, base, msgs0, clock, outcome, attempts0, success0, before, msgs', reports', done', count', crashed)
    ensures crashed <==> config(|reports| + 1).loopsPerBigCycle == 0
    ensures crashed ==> reports' == reports && pj == pi
    ensures !crashed ==> |reports'| == |reports| + 1 && reports'[..|reports|] == reports
    ensures !crashed ==> reports'[|reports|].turn == pi && reports'[|reports|].next == pj && PassProbes(probes, reports'[|reports|])
    ensures !crashed ==> pj > pi
  {
    var loop := |reports| + 1;
    var cfg := config(loop);
    var big := BigCycleAfter(reports);
    st.currentLoop := loop;
    st.currentBigCycle := big;
    if cfg.loopsPerBigCycle == 0 {
      reports', crashed, msgs', pj, done', count' := reports, true, msgs, pi, done, count;
      return;
    }
    crashed := false;
    var report;
    report, msgs', pj, done', count' :=
      Advance(st, config, cfg, base, msgs0, clock, probes, pi, outcome, attempts0, success0, msgs, reports, done, count);
    reports' := reports + [report];
    assert reports'[..|reports|] == reports && reports'[|reports|] == report;
    ProgressAppend(st, config, base, msgs0, clock, outcome, attempts0, success0, before, msgs', reports', done', count');
  }

  /** A pass that kept the run's shape and published its numbers extends `Progress`. */
  lemma ProgressAppend(
    st: BotState, config: nat -> LoopConfig, base: seq<LogEntry>, msgs0: seq<Line>, clock: nat -> string,
    outcome: nat -> bool, attempts0: int, success0: int, before: (bool, bool, int, int, int),
    msgs: seq<Line>, reports: seq<PassReport>, done: nat, count: nat)
    requires st.Valid() && RunShape(config, msgs0, outcome, msgs, reports) && reports != []
    requires Shows(st, base, clock, attempts0, success0, msgs, reports)
    requires done == |AllResults(reports)| && count == CountTrue(AllResults(reports))
    requires 0 <= attempts0 && st.running == before.0 && st.paused == before.1
    requires var last := reports[|reports| - 1];
               && st.currentLoop == last.loop && st.currentBigCycle == last.bigCycle
               && st.loopsInCycle == LoopsInCycle(last.loop, last.config.loopsPerBigCycle)
    ensures Progress(st, config, base, msgs0, clock, outcome, attempts0, success0, before, msgs, reports, done, count, false)
  {
  }

  /** The pass of a turn (loop test `pi`) whose reload has a non-zero `loops_per_big_cycle`. */
  method Advance(
    st: BotState, config: nat -> LoopConfig, cfg: LoopConfig, ghost base: seq<LogEntry>, msgs0: seq<Line>,
    clock: nat -> string, probes: seq<Flags>, pi: nat, outcome: nat -> bool, ghost attempts0: int,
    ghost success0: int, msgs: seq<Line>, reports: seq<PassReport>, done: nat, count: nat)
    returns (report: PassReport, msgs': seq<Line>, pj: nat, done': nat, count': nat)
    requires cfg == config(|reports| + 1) && cfg.loopsPerBigCycle != 0
    requires Proceeds(Probe(probes, pi))
    requires st.Valid() && RunShape(config, msgs0, outcome, msgs, reports)
    requires Shows(st, base, clock, attempts0, success0, msgs, reports)
    requires done == |AllResults(reports)| && count == CountTrue(AllResults(reports))
    requires 0 <= attempts0
    modifies st
    ensures st.Valid() && RunShape(config, msgs0, outcome, msgs', reports + [report])
    ensures Shows(st, base, clock, attempts0, success0, msgs', reports + [report])
    ensures done' == |AllResults(reports + [report])| && count' == CountTrue(AllResults(reports + [report]))
    ensures report.loop == |reports| + 1 && report.bigCycle == BigCycleAfter(reports)
    ensures report.turn == pi && report.next == pj && pj > pi && PassProbes(probes, report)
    ensures st.loopsInCycle == LoopsInCycle(|reports| + 1, cfg.loopsPerBigCycle)
    ensures st.running == old(st.running) && st.paused == old(st.paused)
    ensures st.currentLoop == old(st.currentLoop) && st.currentBigCycle == old(st.currentBigCycle)
  {
    report, msgs', pj := RunPass(st, cfg, |reports| + 1, BigCycleAfter(reports), base, msgs, clock, probes, pi, outcome, done, count);
    RunShapeAppend(config, msgs0, outcome, msgs, reports, report, msgs');
    AllResultsAppend(reports, report);
    CountTrueAppend(AllResults(reports), report.results);
    done' := done + |report.results|;
    count' := report.successTotal;
  }

  /** A pass run as the next one of a connected run extends its shape. */
  lemma {:induction false} RunShapeAppend(
    config: nat -> LoopConfig, msgs0: seq<Line>, outcome: nat -> bool, msgs: seq<Line>, reports: seq<PassReport>,
    report: PassReport, msgs': seq<Line>)
    requires RunShape(config, msgs0, outcome, msgs, reports) && Follows(reports, report, config)
    requires report.results == Outcomes(outcome, |AllResults(reports)|, |report.results|)
    requires msgs' == msgs + PassMessages(report)
    ensures RunShape(config, msgs0, outcome, msgs', reports + [report])
  {
    WellNumberedAppend(reports, report, config);
    AllResultsAppend(reports, report);
    PassesMessagesAppend(reports, report);
    SeqAssoc(msgs0, PassesMessages(reports), PassMessages(report));
    OutcomesSplit(outcome, |AllResults(reports)|, |report.results|);
  }

  /**
   * What the loop has published in `current_loop`, `current_big_cycle` and
   * `loops_in_cycle`: the numbers of the last turn that got past the pause
   * test (the loop number, and the big cycle as it stood when the turn
   * started), and the position in its big cycle of the last pass that got that
   * far; before any pass, the values from before the run.
   */
  ghost predicate Published(st: BotState, reports: seq<PassReport>, crashed: bool, before: (bool, bool, int, int, int))
    requires Shaped(reports)
    reads st`currentLoop, st`currentBigCycle, st`loopsInCycle
  {
    && (crashed ==> st.currentLoop == |reports| + 1 && st.currentBigCycle == BigCycleAfter(reports))
    && (!crashed && reports == [] ==> st.currentLoop == before.2 && st.currentBigCycle == before.3)
    && (!crashed && reports != [] ==>
          st.currentLoop == reports[|reports| - 1].loop && st.currentBigCycle == reports[|reports| - 1].bigCycle)
    && (reports == [] ==> st.loopsInCycle == before.4)
    && (reports != [] ==>
          st.loopsInCycle == LoopsInCycle(reports[|reports| - 1].loop, reports[|reports| - 1].config.loopsPerBigCycle))
  }

  /**
   * `run_bot` from the initial load to the end of the run. An initial load
   * without codes is refused with one line. Otherwise the startup lines are
   * logged; when connecting to Telegram fails (`setupError`) the run logs the
   * error; otherwise it logs the connection, runs the outer loop (reloads
   * `config(1)`, `config(2)`, ...) and logs the stop or, after a reload whose
   * `loops_per_big_cycle` is zero, the `ZeroDivisionError`. Every run that got
   * past the codes test ends with `running` cleared and the disconnect line.
   */
  method RunBot(
    st: BotState, config: nat -> LoopConfig, setupError: Option<string>, probes: seq<Flags>,
    outcome: nat -> bool, clock: nat -> string)
    returns (reports: seq<PassReport>, ending: RunEnd, lines: seq<Line>, stopAt: nat)
    requires st.Valid()
    modifies st
    ensures st.Valid() && Shaped(reports) && lines == RunMessages(config(0), reports, ending)
    ensures st.history == old(st.history) + Stamp(lines, clock)
    ensures st.logs == KeepLast(old(st.logs) + Stamp(lines, clock), LOG_CAPACITY)
    ensures ending == NoCodes <==> config(0).codes == []
    ensures ending.SetupFailed? <==> config(0).codes != [] && setupError.Some?
    ensures ending.SetupFailed? ==> ending.error == setupError.value
    ensures ending.Crashed? ==> ending.error == ZERO_MODULO && config(|reports| + 1).loopsPerBigCycle == 0
    ensures ending.NoCodes? || ending.SetupFailed? ==> reports == []
    ensures WellNumbered(reports, config)
    ensures AllResults(reports) == Outcomes(outcome, 0, |AllResults(reports)|)
    ensures st.totalAttempts == old(st.totalAttempts) + |AllResults(reports)|
    ensures CountTrue(AllResults(reports)) > 0 ==> st.totalSuccess == CountTrue(AllResults(reports))
    ensures CountTrue(AllResults(reports)) == 0 ==> st.totalSuccess == old(st.totalSuccess)
    ensures !st.running && st.paused == old(st.paused)
    ensures Published(st, reports, ending.Crashed?, old(st.Phase()))
    ensures ending.StoppedByUser? || ending.Crashed? ==> Steered(probes, 0, reports, stopAt, ending.Crashed?)
    ensures ending.StoppedByUser? ==> !Probe(probes, stopAt).running
  {
    ghost var base := st.history;
    stopAt := 0;
    ghost var before := st.Phase();
    var initial := config(0);
    reports := [];
    assert base + Stamp([], clock) == base;
    if initial.codes == [] {
      lines := Emit(st, base, [], NoCodesConfigured, clock);
      st.running := false;
      ending := NoCodes;
      assert lines == RunMessages(initial, reports, ending);
      KeepLastAppend(base, Stamp(lines, clock), LOG_CAPACITY);
      return;
    }
    lines := Startup(st, base, initial, clock);
    if setupError.Some? {
      ending := SetupFailed(setupError.value);
      lines := Finish(st, base, lines, BotError(setupError.value), clock);
      assert lines == RunMessages(initial, reports, ending);
    } else {
      reports, ending, lines, stopAt := Connect(st, config, initial, base, lines, probes, outcome, clock);
    }
    KeepLastAppend(base, Stamp(lines, clock), LOG_CAPACITY);
  }

  /**
   * A run whose connection succeeded, from the `Connected to Telegram` line to
   * the disconnect line: the outer loop, then the stop or the crash.
   */
  method Connect(
    st: BotState, config: nat -> LoopConfig, initial: LoopConfig, ghost base: seq<LogEntry>, startup: seq<Line>,
    probes: seq<Flags>, outcome: nat -> bool, clock: nat -> string)
    returns (reports: seq<PassReport>, ending: RunEnd, lines: seq<Line>, stopAt: nat)
    requires st.Valid() && st.history == base + Stamp(startup, clock) && startup == StartupMessages(initial)
    modifies st
    ensures st.Valid() && st.history == base + Stamp(lines, clock)
    ensures WellNumbered(reports, config) && Shaped(reports) && lines == RunMessages(initial, reports, ending)
    ensures ending == StoppedByUser || ending == Crashed(ZERO_MODULO)
    ensures ending.Crashed? ==> config(|reports| + 1).loopsPerBigCycle == 0
    ensures AllResults(reports) == Outcomes(outcome, 0, |AllResults(reports)|)
    ensures st.totalAttempts == old(st.totalAttempts) + |AllResults(reports)|
    ensures CountTrue(AllResults(reports)) > 0 ==> st.totalSuccess == CountTrue(AllResults(reports))
    ensures CountTrue(AllResults(reports)) == 0 ==> st.totalSuccess == old(st.totalSuccess)
    ensures !st.running && st.paused == old(st.paused)
    ensures Published(st, reports, ending.Crashed?, old(st.Phase()))
    ensures Steered(probes, 0, reports, stopAt, ending.Crashed?)
    ensures ending.StoppedByUser? ==> !Probe(probes, stopAt).running
  {
    lines := Emit(st, base, startup, ConnectedToTelegram, clock);
    var crashed;
    reports, crashed, lines, stopAt := RunLoop(st, config, base, lines, clock, probes, 0, outcome);
    ending := if crashed then Crashed(ZERO_MODULO) else StoppedByUser;
    var last := if crashed then BotError(ZERO_MODULO) else StoppedByUserLine;
    lines := Finish(st, base, lines, last, clock);
  }

  /** The three startup lines: initialised, the number of codes, the proxy setting. */
  method Startup(st: BotState, ghost base: seq<LogEntry>, initial: LoopConfig, clock: nat -> string)
    returns (lines: seq<Line>)
    requires st.Valid() && st.history == base
    modifies st
    ensures st.Valid() && st.history == base + Stamp(lines, clock) && lines == StartupMessages(initial)
    ensures st.Phase() == old(st.Phase())
    ensures st.totalSuccess == old(st.totalSuccess) && st.totalAttempts == old(st.totalAttempts)
  {
    assert base + Stamp([], clock) == base;
    lines := Emit(st, base, [], BotInitialized, clock);
    lines := Emit(st, base, lines, CodesLoaded(|initial.codes|), clock);
    var proxy := if initial.useProxy && initial.proxyList != [] then ProxyEnabled(|initial.proxyList|) else ProxyDisabled;
    lines := Emit(st, base, lines, proxy, clock);
  }

  /** The end of a run that got past the codes test: its last line, `running` cleared, the disconnect line. */
  method Finish(st: BotState, ghost base: seq<LogEntry>, msgs: seq<Line>, last: Line, clock: nat -> string)
    returns (msgs': seq<Line>)
    requires st.Valid() && st.history == base + Stamp(msgs, clock)
    modifies st
    ensures st.Valid() && st.history == base + Stamp(msgs', clock) && msgs' == msgs + [last, Disconnected]
    ensures !st.running && st.paused == old(st.paused)
    ensures st.currentLoop == old(st.currentLoop) && st.currentBigCycle == old(st.currentBigCycle)
    ensures st.loopsInCycle == old(st.loopsInCycle)
    ensures st.totalSuccess == old(st.totalSuccess) && st.totalAttempts == old(st.totalAttempts)
  {
    msgs' := Emit(st, base, msgs, last, clock);
    st.running := false;
    msgs' := Emit(st, base, msgs', Disconnected, clock);
  }
}
