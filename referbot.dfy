/**
 * The standalone referral bot: the message handler's effect on the bot's
 * fields, one referral cycle as four steps that stop at the first failure,
 * the console approval prompt, and the endless loop of cycles grouped into
 * big cycles of fifty with an approval gate after each.
 *
 * The Telegram and HTTP calls are inputs: a `CycleWorld` says what each
 * step of a cycle returns, and the approval prompt reads from a sequence of
 * console lines.
 */
module ReferBot {
  import opened Wrappers
  import opened PyText
  import opened Extraction
  import opened Schedule

  // ---------------------------------------------------------------------------
  // The bot's fields and its message handler

  class SimplusAutoReferBot {
    var currentEmail: Option<string>
    var verificationCode: Option<string>
    /** Whether the `email_received` event is set. */
    var emailReceived: bool
    /** Whether the `code_received` event is set. */
    var codeReceived: bool

    constructor ()
      ensures currentEmail == None && verificationCode == None
      ensures !emailReceived && !codeReceived
    {
      currentEmail := None;
      verificationCode := None;
      emailReceived := false;
      codeReceived := false;
    }

    /**
     * The handler for a message from the temporary-mail bot. The address and
     * the code are looked for independently, so one message may set both;
     * what is not found leaves its field and its event as they were.
     */
    method HandleMessage(message: string)
      modifies this
      ensures ExtractEmail(message).Some? ==> currentEmail == ExtractEmail(message) && emailReceived
      ensures ExtractEmail(message).None? ==> currentEmail == old(currentEmail) && emailReceived == old(emailReceived)
      ensures ExtractCode(message).Some? ==> verificationCode == ExtractCode(message) && codeReceived
      ensures ExtractCode(message).None? ==>
                verificationCode == old(verificationCode) && codeReceived == old(codeReceived)
    {
      var email := ExtractEmail(message);
      if email.Some? {
        currentEmail := email;
        emailReceived := true;
      }
      var code := ExtractCode(message);
      if code.Some? {
        verificationCode := code;
        codeReceived := true;
      }
    }
  }

  // ---------------------------------------------------------------------------
  // One referral cycle

  /**
   * What the four steps of a cycle return: the generated address (`None` on
   * a timeout), whether sending the verification code succeeded, the code
   * received (`None` on a timeout), and whether the registration succeeded.
   */
  datatype CycleWorld = CycleWorld(email: Option<string>, sent: bool, code: Option<string>, registered: bool)

  datatype Step = GenerateEmail | SendCode(email: string) | WaitForCode | Register(email: string, code: string)

  datatype CycleRun = CycleRun(success: bool, steps: seq<Step>)

  /** `if not value`: Python treats `None` and the empty string as false. */
  predicate Given(v: Option<string>) {
    v.Some? && v.value != ""
  }

  /** The position of a step in the cycle. */
  function StepIndex(s: Step): nat {
    match s
    case GenerateEmail => 0
    case SendCode(_) => 1
    case WaitForCode => 2
    case Register(_, _) => 3
  }

  /** The step did what the cycle needs from it. */
  predicate StepOk(w: CycleWorld, s: Step) {
    match s
    case GenerateEmail => Given(w.email)
    case SendCode(_) => w.sent
    case WaitForCode => Given(w.code)
    case Register(_, _) => w.registered
  }

  /**
   * `run_cycle`: the steps run in order, each one after a step that
   * succeeded, and the cycle stops at the first failure; the generated
   * address and the received code are what the later steps are given.
   */
  function RunCycle(w: CycleWorld): (r: CycleRun)
    ensures 1 <= |r.steps| <= 4
    ensures forall k :: 0 <= k < |r.steps| ==> StepIndex(r.steps[k]) == k
    ensures forall k :: 0 <= k < |r.steps| - 1 ==> StepOk(w, r.steps[k])
    ensures !StepOk(w, r.steps[|r.steps| - 1]) <==> !r.success
    ensures r.success ==> |r.steps| == 4
    ensures forall k :: 0 <= k < |r.steps| && r.steps[k].SendCode? ==> w.email == Some(r.steps[k].email)
    ensures forall k :: 0 <= k < |r.steps| && r.steps[k].Register? ==>
              w.email == Some(r.steps[k].email) && w.code == Some(r.steps[k].code)
  {
    if !Given(w.email) then CycleRun(false, [GenerateEmail])
    else
      var email := w.email.value;
      if !w.sent then CycleRun(false, [GenerateEmail, SendCode(email)])
      else if !Given(w.code) then CycleRun(false, [GenerateEmail, SendCode(email), WaitForCode])
      else CycleRun(w.registered, [GenerateEmail, SendCode(email), WaitForCode, Register(email, w.code.value)])
  }

  /** Every one of the four steps succeeds. */
  predicate CycleSucceeds(w: CycleWorld) {
    Given(w.email) && w.sent && Given(w.code) && w.registered
  }

  /** A cycle succeeds exactly when every one of its four steps does. */
  lemma CycleSucceedsIffAllSteps(w: CycleWorld)
    ensures RunCycle(w).success <==> CycleSucceeds(w)
  {
    var r := RunCycle(w);
    if r.success {
      assert StepOk(w, r.steps[0]) && StepOk(w, r.steps[1]) && StepOk(w, r.steps[2]) && StepOk(w, r.steps[3]);
    }
  }

  // ---------------------------------------------------------------------------
  // The approval prompt

  /** `response.lower().strip()` */
  function Normal(answer: string): string {
    Strip(Lower(answer))
  }

  /** The normalised response tested against `y`/`yes` and `n`/`no`; anything else is re-prompted. */
  function Classify(answer: string): Option<bool> {
    var t := Normal(answer);
    if t == "y" || t == "yes" then Some(true)
    else if t == "n" || t == "no" then Some(false)
    else None
  }

  lemma {:induction false} LowerAllSpace(a: string)
    requires AllSpace(a)
    ensures Lower(a) == a
    decreases |a|
  {
    if a != [] {
      LowerAllSpace(a[1..]);
      assert Lower(a)[1..] == Lower(a[1..]);
    }
  }

  lemma LowerAppend(a: string, b: string)
    ensures Lower(a + b) == Lower(a) + Lower(b)
  {
    forall i | 0 <= i < |a + b|
      ensures Lower(a + b)[i] == (Lower(a) + Lower(b))[i]
    {
      if i < |a| {
        assert (a + b)[i] == a[i];
      } else {
        assert (a + b)[i] == b[i - |a|];
      }
    }
  }

  lemma LowerTwice(x: string)
    ensures Lower(Lower(x)) == Lower(x)
  {
    forall i | 0 <= i < |x|
      ensures Lower(Lower(x))[i] == Lower(x)[i]
    {
    }
  }

  /** Surrounding whitespace and letter case do not change the normalised response. */
  lemma NormalPadded(a: string, x: string, b: string)
    requires AllSpace(a) && AllSpace(b)
    ensures Normal(a + x + b) == Normal(x)
    ensures Normal(Lower(x)) == Normal(x)
  {
    LowerAllSpace(a);
    LowerAllSpace(b);
    LowerAppend(a, x);
    LowerAppend(a + x, b);
    assert Lower(a + x + b) == a + Lower(x) + b;
    StripPadded(a, Lower(x), b);
    LowerTwice(x);
  }

  /** So they do not change how an answer is read either. */
  lemma ClassifyPadded(a: string, x: string, b: string)
    requires AllSpace(a) && AllSpace(b)
    ensures Classify(a + x + b) == Classify(x)
    ensures Classify(Lower(x)) == Classify(x)
  {
    NormalPadded(a, x, b);
  }

  /** How each console line is read: an answer, or a line that makes the prompt ask again. */
  function Answers(lines: seq<string>): (r: seq<Option<bool>>)
    ensures ReadAs(lines, r)
  {
    seq(|lines|, k requires 0 <= k < |lines| => Classify(lines[k]))
  }

  /**
   * `replies` is how the lines read. (The trigger keeps the reading of a line
   * out of proofs that never look at the line itself.)
   */
  ghost predicate ReadAs(lines: seq<string>, replies: seq<Option<bool>>) {
    |replies| == |lines| && forall k {:trigger lines[k]} :: 0 <= k < |lines| ==> replies[k] == Classify(lines[k])
  }

  /** None of `replies[lo..hi]` is a recognised answer. */
  predicate NoneRecognised(replies: seq<Option<bool>>, lo: nat, hi: nat)
    requires lo <= hi <= |replies|
    decreases hi
  {
    lo == hi || (NoneRecognised(replies, lo, hi - 1) && replies[hi - 1].None?)
  }

  /** `NoneRecognised` says the same as testing every line. */
  lemma {:induction false} NoneRecognisedEach(replies: seq<Option<bool>>, lo: nat, hi: nat)
    requires lo <= hi <= |replies|
    ensures NoneRecognised(replies, lo, hi) <==> forall k :: lo <= k < hi ==> replies[k].None?
    decreases hi
  {
    if lo < hi {
      NoneRecognisedEach(replies, lo, hi - 1);
    }
  }

  /** The recognised answers, in order. */
  function Recognised(replies: seq<Option<bool>>): seq<bool>
    decreases |replies|
  {
    if replies == [] then []
    else
      Recognised(replies[..|replies| - 1])
      + (match replies[|replies| - 1] case Some(b) => [b] case None => [])
  }

  /** Lines that are not recognised add no answer. */
  lemma {:induction false} RecognisedSkips(replies: seq<Option<bool>>, lo: nat, hi: nat)
    requires lo <= hi <= |replies|
    requires NoneRecognised(replies, lo, hi)
    ensures Recognised(replies[..hi]) == Recognised(replies[..lo])
    decreases hi
  {
    if lo < hi {
      RecognisedSkips(replies, lo, hi - 1);
      assert replies[..hi][..hi - 1] == replies[..hi - 1];
    }
  }

  /** One call of the prompt adds exactly its answer to the recognised answers. */
  lemma RecognisedAnswer(replies: seq<Option<bool>>, from: nat, next: nat, b: bool)
    requires from < next <= |replies|
    requires NoneRecognised(replies, from, next - 1)
    requires replies[next - 1] == Some(b)
    ensures Recognised(replies[..next]) == Recognised(replies[..from]) + [b]
  {
    RecognisedSkips(replies, from, next - 1);
    assert replies[..next][..next - 1] == replies[..next - 1];
  }

  /** One prompt: read line `i` and classify it. */
  method ReadAnswer(answers: seq<string>, i: nat, ghost replies: seq<Option<bool>>) returns (response: Option<bool>)
    requires i < |answers| && ReadAs(answers, replies)
    ensures response == replies[i]
  {
    response := Classify(answers[i]);
  }

  /**
   * `get_user_approval` on the console lines from `from` on: it reads lines
   * until one is recognised, and answers with that line's meaning; when the
   * lines run out first, `input()` fails and there is no answer. `next` is
   * the number of lines read so far, so the answer is the first recognised
   * one after `from`.
   */
  method GetUserApproval(answers: seq<string>, from: nat, ghost replies: seq<Option<bool>>)
    returns (answer: Option<bool>, next: nat)
    requires from <= |answers| && ReadAs(answers, replies)
    ensures from <= next <= |answers|
    ensures answer.Some? ==> from < next && replies[next - 1] == answer
    ensures answer.Some? ==> NoneRecognised(replies, from, next - 1)
    ensures answer.None? ==> next == |answers| && NoneRecognised(replies, from, |answers|)
  {
    var i := from;
    while i < |answers|
      invariant from <= i <= |answers|
      invariant NoneRecognised(replies, from, i)
    {
      var response := ReadAnswer(answers, i, replies);
      i := i + 1;
      if response.Some? {
        return response, i;
      }
    }
    return None, i;
  }

  // ---------------------------------------------------------------------------
  // The continuous run

  const CYCLES_PER_BIG_CYCLE: int := 50

  /** What the statistics line and the scheduling show about one cycle. */
  datatype CycleReport = CycleReport(
    cycle: nat, success: bool, successTotal: nat, bigCycle: nat, position: int, waited: bool)

  /** How the run ends: the user declines to continue, or the console input runs out. */
  datatype Ending = Declined | InputExhausted

  /** How many of the cycles `1..n` succeed. */
  function Successes(world: nat -> CycleWorld, n: nat): nat {
    if n == 0 then 0 else Successes(world, n - 1) + (if CycleSucceeds(world(n)) then 1 else 0)
  }

  lemma {:induction false} SuccessesBound(world: nat -> CycleWorld, n: nat)
    ensures Successes(world, n) <= n
  {
    if n > 0 {
      SuccessesBound(world, n - 1);
    }
  }

  /**
   * The report of cycle `n`: its own outcome, the running success count, the
   * big cycle it belongs to, its place in that big cycle, and whether the
   * five-second pause followed it (never after the `last` cycle).
   */
  predicate ReportOk(world: nat -> CycleWorld, r: CycleReport, n: nat, last: bool) {
    && n >= 1
    && r.cycle == n
    && (r.success <==> CycleSucceeds(world(n)))
    && r.successTotal == Successes(world, n)
    && r.bigCycle == 1 + (n - 1) / CYCLES_PER_BIG_CYCLE
    && r.position == LoopsInCycle(n, CYCLES_PER_BIG_CYCLE)
    && (r.waited <==> !last && !SkipsWait(n + 1, CYCLES_PER_BIG_CYCLE))
  }

  /** Every report is that of its cycle, none of them the last (written recursively to keep proofs cheap). */
  predicate ReportsOk(world: nat -> CycleWorld, reports: seq<CycleReport>)
    decreases |reports|
  {
    reports == []
    || (ReportsOk(world, reports[..|reports| - 1]) && ReportOk(world, reports[|reports| - 1], |reports|, false))
  }

  lemma {:induction false} ReportsOkEach(world: nat -> CycleWorld, reports: seq<CycleReport>, k: nat)
    requires ReportsOk(world, reports) && k < |reports|
    ensures ReportOk(world, reports[k], k + 1, false)
    decreases |reports|
  {
    if k < |reports| - 1 {
      ReportsOkEach(world, reports[..|reports| - 1], k);
    }
  }

  /** `seq(n, _ => true)` */
  function Approvals(n: nat): (r: seq<bool>)
    ensures |r| == n && forall k :: 0 <= k < n ==> r[k]
  {
    seq(n, _ => true)
  }

  /** The state of `run_continuous` at the top of its loop, before cycle `cycle`. */
  predicate Progress(world: nat -> CycleWorld, replies: seq<Option<bool>>, cycle: nat, successes: nat, big: nat,
                     reports: seq<CycleReport>, consumed: nat) {
    && cycle >= 1 && |reports| == cycle - 1
    && successes == Successes(world, cycle - 1)
    && big == 1 + (cycle - 1) / CYCLES_PER_BIG_CYCLE
    && ReportsOk(world, reports)
    && consumed <= |replies|
    && Recognised(replies[..consumed]) == Approvals(big - 1)
  }

  /** The reports of a whole run: a whole number of big cycles, the last cycle without a pause after it. */
  predicate RunReports(world: nat -> CycleWorld, reports: seq<CycleReport>) {
    && |reports| > 0 && |reports| % CYCLES_PER_BIG_CYCLE == 0
    && ReportsOk(world, reports[..|reports| - 1])
    && ReportOk(world, reports[|reports| - 1], |reports|, true)
  }

  /** The whole run after it stopped at the end of big cycle `big`. */
  predicate Finished(world: nat -> CycleWorld, replies: seq<Option<bool>>, big: nat, reports: seq<CycleReport>,
                     consumed: nat, ending: Ending) {
    && RunReports(world, reports)
    && big == |reports| / CYCLES_PER_BIG_CYCLE
    && consumed <= |replies|
    && (ending == Declined ==> Recognised(replies[..consumed]) == Approvals(big - 1) + [false])
    && (ending == InputExhausted ==> consumed == |replies| && Recognised(replies) == Approvals(big - 1))
  }

  /**
   * The prompt at the end of big cycle `big` extends the recognised answers:
   * by `true` when the run goes on, by `false` when it is declined, and not at
   * all when the input runs out.
   */
  lemma ApprovalStep(replies: seq<Option<bool>>, consumed: nat, big: nat, answer: Option<bool>, next: nat)
    requires consumed <= next <= |replies| && big >= 1
    requires Recognised(replies[..consumed]) == Approvals(big - 1)
    requires answer.Some? ==> consumed < next && replies[next - 1] == answer
    requires answer.Some? ==> NoneRecognised(replies, consumed, next - 1)
    requires answer.None? ==> next == |replies| && NoneRecognised(replies, consumed, |replies|)
    ensures answer == Some(true) ==> consumed < next && Recognised(replies[..next]) == Approvals(big)
    ensures answer == Some(false) ==> Recognised(replies[..next]) == Approvals(big - 1) + [false]
    ensures answer.None? ==> Recognised(replies) == Approvals(big - 1)
  {
    if answer.Some? {
      RecognisedAnswer(replies, consumed, next, answer.value);
      assert Approvals(big) == Approvals(big - 1) + [true];
    } else {
      RecognisedSkips(replies, consumed, next);
      assert replies[..next] == replies;
    }
  }

  /** A cycle that is not the last moves the loop state on to the next cycle. */
  lemma ProgressNext(world: nat -> CycleWorld, replies: seq<Option<bool>>, cycle: nat, successes: nat, big: nat,
                     reports: seq<CycleReport>, consumed: nat, r: CycleReport, big': nat, consumed': nat)
    requires Progress(world, replies, cycle, successes, big, reports, consumed)
    requires ReportOk(world, r, cycle, false)
    requires big' == 1 + cycle / CYCLES_PER_BIG_CYCLE
    requires consumed' <= |replies| && Recognised(replies[..consumed']) == Approvals(big' - 1)
    ensures Progress(world, replies, cycle + 1, r.successTotal, big', reports + [r], consumed')
  {
    assert (reports + [r])[..|reports|] == reports;
  }

  /** The cycle that closes a big cycle, when the run stops after it, completes the run. */
  lemma StopFinished(world: nat -> CycleWorld, replies: seq<Option<bool>>, cycle: nat, successes: nat, big: nat,
                     reports: seq<CycleReport>, consumed: nat, r: CycleReport, consumed': nat, ending: Ending)
    requires Progress(world, replies, cycle, successes, big, reports, consumed)
    requires cycle % CYCLES_PER_BIG_CYCLE == 0
    requires ReportOk(world, r, cycle, true)
    requires consumed' <= |replies|
    requires ending == Declined ==> Recognised(replies[..consumed']) == Approvals(big - 1) + [false]
    requires ending == InputExhausted ==> consumed' == |replies| && Recognised(replies) == Approvals(big - 1)
    ensures Finished(world, replies, big, reports + [r], consumed', ending)
  {
    assert (reports + [r])[..|reports|] == reports;
    QuotientStep(cycle, CYCLES_PER_BIG_CYCLE);
  }

  /**
   * `run_continuous` after setup: cycles run one after another; after every
   * fiftieth the user is asked whether to go on. The run stops only there,
   * on a refusal or when the console input runs out, so it has run a whole
   * number of big cycles; every approval opened the next big cycle.
   */
  method RunContinuous(world: nat -> CycleWorld, answers: seq<string>)
    returns (reports: seq<CycleReport>, bigCycles: nat, consumed: nat, ending: Ending)
    ensures Finished(world, Answers(answers), bigCycles, reports, consumed, ending)
  {
    ghost var replies := Answers(answers);
    var cycle: nat := 1;
    var successes: nat := 0;
    var big: nat := 1;
    reports := [];
    consumed := 0;
    while true
      invariant Progress(world, replies, cycle, successes, big, reports, consumed)
      decreases |answers| - consumed, CYCLES_PER_BIG_CYCLE - LoopsInCycle(cycle, CYCLES_PER_BIG_CYCLE)
    {
      var stop: Option<Ending>;
      cycle, successes, big, reports, consumed, stop :=
        OneCycle(world, answers, replies, cycle, successes, big, reports, consumed);
      if stop.Some? {
        bigCycles := big;
        ending := stop.value;
        return;
      }
    }
  }

  /**
   * One pass of the loop: run cycle `cycle`, count it, and at the end of a big
   * cycle ask for approval, stopping unless it is given; otherwise move to the
   * next cycle, pausing unless a big cycle begins.
   */
  method OneCycle(world: nat -> CycleWorld, answers: seq<string>, ghost replies: seq<Option<bool>>,
                  cycle: nat, successes: nat, big: nat, reports: seq<CycleReport>, consumed: nat)
    returns (cycle': nat, successes': nat, big': nat, reports': seq<CycleReport>, consumed': nat, stop: Option<Ending>)
    requires ReadAs(answers, replies)
    requires Progress(world, replies, cycle, successes, big, reports, consumed)
    ensures stop.None? ==> Progress(world, replies, cycle', successes', big', reports', consumed')
    ensures stop.None? ==>
              || consumed < consumed' <= |answers|
              || (consumed' == consumed && LoopsInCycle(cycle, CYCLES_PER_BIG_CYCLE) < LoopsInCycle(cycle', CYCLES_PER_BIG_CYCLE))
    ensures stop.Some? ==> Finished(world, replies, big', reports', consumed', stop.value)
  {
    var run := RunCycle(world(cycle));
    CycleSucceedsIffAllSteps(world(cycle));
    successes' := successes;
    if run.success {
      successes' := successes + 1;
    }
    var position := LoopsInCycle(cycle, CYCLES_PER_BIG_CYCLE);
    big' := big;
    consumed' := consumed;
    QuotientStep(cycle, CYCLES_PER_BIG_CYCLE);
    LoopsInCycleNext(cycle, CYCLES_PER_BIG_CYCLE);
    if CompletesBigCycle(cycle, CYCLES_PER_BIG_CYCLE) {
      var answer, next := GetUserApproval(answers, consumed, replies);
      ApprovalStep(replies, consumed, big, answer, next);
      consumed' := next;
      if answer != Some(true) {
        var report := CycleReport(cycle, run.success, successes', big, position, false);
        cycle' := cycle;
        stop := Some(if answer.None? then InputExhausted else Declined);
        StopFinished(world, replies, cycle, successes, big, reports, consumed, report, consumed', stop.value);
        reports' := reports + [report];
        return;
      }
      big' := big + 1;
    }
    cycle' := cycle + 1;
    var waited := !SkipsWait(cycle', CYCLES_PER_BIG_CYCLE);
    var report := CycleReport(cycle, run.success, successes', big, position, waited);
    ProgressNext(world, replies, cycle, successes, big, reports, consumed, report, big', consumed');
    reports' := reports + [report];
    stop := None;
  }

  /** After every cycle the success count is at most the cycle count, and the position lies in `1..50`. */
  lemma ReportBounds(world: nat -> CycleWorld, r: CycleReport, n: nat, last: bool)
    requires ReportOk(world, r, n, last)
    ensures r.successTotal <= r.cycle
    ensures 1 <= r.position <= CYCLES_PER_BIG_CYCLE
    ensures r.position == CYCLES_PER_BIG_CYCLE <==> n % CYCLES_PER_BIG_CYCLE == 0
  {
    SuccessesBound(world, n);
  }

  /** Each report of a whole run is that of its cycle. */
  lemma RunReportsEach(world: nat -> CycleWorld, reports: seq<CycleReport>, k: nat)
    requires RunReports(world, reports) && k < |reports|
    ensures ReportOk(world, reports[k], k + 1, k == |reports| - 1)
  {
    var last := |reports| - 1;
    if k < last {
      ReportsOkEach(world, reports[..last], k);
      assert reports[..last][k] == reports[k];
    }
  }

  /**
   * Over a whole run, the pause follows every cycle except the fiftieth of
   * each big cycle, and the big-cycle number goes up by one exactly after
   * those.
   */
  lemma RunTiming(world: nat -> CycleWorld, reports: seq<CycleReport>, k: nat)
    requires RunReports(world, reports) && k < |reports|
    ensures reports[k].waited <==> (k + 1) % CYCLES_PER_BIG_CYCLE != 0
    ensures k + 1 < |reports| ==>
              reports[k + 1].bigCycle == reports[k].bigCycle + (if (k + 1) % CYCLES_PER_BIG_CYCLE == 0 then 1 else 0)
  {
    RunReportsEach(world, reports, k);
    SkipsWaitAfterBoundary(k + 1, CYCLES_PER_BIG_CYCLE);
    if k + 1 < |reports| {
      RunReportsEach(world, reports, k + 1);
      QuotientStep(k + 1, CYCLES_PER_BIG_CYCLE);
    }
  }
}
