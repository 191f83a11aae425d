/** The agent wrapped in the guardrails (`guardrails_integration_example.py`):
    `get_reading_safe`, which screens a question before asking the agent
    for a reading and screens the reading it gets back, and the health
    report built from the guardrail statistics. */
module Integration {
  import opened Text
  import opened Guards
  import Agent

  // ---------------------------------------------------------------------
  // get_reading_safe
  // ---------------------------------------------------------------------

  /** The `guardrails_metadata` entry added to a delivered reading. */
  datatype GuardrailsMetadata = GuardrailsMetadata(
    inputConfidence: real,
    contentAppropriate: bool,
    outputQuality: real)

  /** The dictionary `get_reading_safe` returns: the agent's `cards` and
      `reading`, the `guardrails_warning` key when output screening failed,
      and the metadata. */
  datatype SafeReading = SafeReading(
    cards: seq<Agent.DrawnCard>,
    reading: string,
    warning: Option<string>,
    metadata: GuardrailsMetadata)

  /** How `get_reading_safe` ends: with a reading; with the `ValueError`
      raised by a failed check; with the agent's own exception, raised
      again; or not at all, while the agent keeps redrawing. */
  datatype SafeOutcome =
    | Answered(result: SafeReading)
    | Refused(message: string)
    | Failed(message: string)
    | Hangs

  const InvalidRequestPrefix: string := "Недійсний запит: "
  const InappropriatePrefix: string := "Неприйнятний контент: "

  /** A reason as an f-string shows it: the text, or `None`. */
  function ReasonText(reason: Option<string>): string
  {
    match reason
    case Some(text) => text
    case None => "None"
  }

  /** The names of the cards, as output screening reads them. */
  function Names(cards: seq<Agent.DrawnCard>): (names: seq<string>)
    ensures |names| == |cards|
    ensures forall i :: 0 <= i < |cards| ==> names[i] == cards[i].name
  {
    seq(|cards|, i requires 0 <= i < |cards| => cards[i].name)
  }

  /** The `try` block of `get_reading_safe`, once every check has passed:
      take the agent's reading, screen it, and decorate it with the
      warning and the metadata; the agent's exception is raised again. */
  function Decorate(input: GuardrailResult, content: GuardrailResult, reading: Agent.ReadingOutcome): SafeOutcome
  {
    match reading
    case RetriesForever => Hangs
    case Raised(message) => Failed(message)
    case Delivered(cards, text) =>
      var output := OutputVerdict(text, Names(cards));
      Answered(SafeReading(cards, text,
                           if output.isSafe then None else output.reason,
                           GuardrailsMetadata(input.confidence, content.isSafe, output.confidence)))
  }

  /** What `get_reading_safe(question)` produces when the agent's
      `get_reading` would end with `reading`. Rate limiting always passes,
      so it has no branch here. */
  function SafeOutcomeOf(question: string, reading: Agent.ReadingOutcome): (outcome: SafeOutcome)
  {
    var input := InputVerdict(question);
    if !input.isSafe then Refused(InvalidRequestPrefix + ReasonText(input.reason))
    else
      var content := ContentVerdict(question);
      if !content.isSafe then Refused(InappropriatePrefix + ReasonText(content.reason))
      else Decorate(input, content, reading)
  }

  /** `get_reading_safe`: inside a `GuardrailsContext` entered at
      `startTime`, run input validation (which updates the statistics),
      the content check and the rate check, raising on the first failure;
      only then take the agent's reading and screen it. Every exit from the
      context, a refusal included, records `endTime - startTime` unless
      the start time is 0.0; a reading that never ends never leaves it. */
  method GetReadingSafe(g: TarotGuardrails, question: string, reading: Agent.ReadingOutcome,
                        startTime: real, endTime: real)
    returns (outcome: SafeOutcome)
    requires g.Valid()
    modifies g
    ensures outcome == SafeOutcomeOf(question, reading)
    ensures g.Valid()
    ensures g.totalRequests == old(g.totalRequests) + 1
    ensures InputVerdict(question).isSafe ==>
              g.blockedRequests == old(g.blockedRequests) && g.blockedReasons == old(g.blockedReasons)
    ensures !InputVerdict(question).isSafe ==>
              g.blockedRequests == old(g.blockedRequests) + 1
              && g.blockedReasons == Bump(old(g.blockedReasons), InputVerdict(question).reason.value)
    ensures outcome != Hangs && startTime != 0.0 ==>
              g.processingTimes == old(g.processingTimes) + [endTime - startTime]
    ensures outcome == Hangs || startTime == 0.0 ==> g.processingTimes == old(g.processingTimes)
  {
    var context := new GuardrailsContext(g);
    var guardrails := context.Enter(startTime);
    var inputResult := guardrails.InputValidation(question);
    if !inputResult.isSafe {
      outcome := Refused(InvalidRequestPrefix + ReasonText(inputResult.reason));
    } else {
      var contentResult := ContentVerdict(question);
      if !contentResult.isSafe {
        outcome := Refused(InappropriatePrefix + ReasonText(contentResult.reason));
      } else {
        // Rate limiting is a stub that lets every request through.
        var rateResult := RateVerdict("default");
        outcome := Decorate(inputResult, contentResult, reading);
      }
    }
    // Leaving the `with` block, by a return or by an exception.
    if outcome != Hangs {
      context.Exit(endTime);
    }
  }

  /** A question is refused exactly when input validation or the content
      check fails, with the message of the first failing check, and then
      the agent's reading plays no part. */
  lemma RefusedIff(question: string, reading: Agent.ReadingOutcome, other: Agent.ReadingOutcome)
    ensures SafeOutcomeOf(question, reading).Refused?
            <==> !InputVerdict(question).isSafe || !ContentVerdict(question).isSafe
    ensures !InputVerdict(question).isSafe ==>
              SafeOutcomeOf(question, reading) == Refused(InvalidRequestPrefix + InputVerdict(question).reason.value)
    ensures InputVerdict(question).isSafe && !ContentVerdict(question).isSafe ==>
              SafeOutcomeOf(question, reading) == Refused(InappropriatePrefix + ContentVerdict(question).reason.value)
    ensures SafeOutcomeOf(question, reading).Refused? ==>
              SafeOutcomeOf(question, other) == SafeOutcomeOf(question, reading)
  {
    InputVerdictSafeIff(question);
    ContentVerdictIff(question);
  }

  /** Once both checks pass, the outcome follows the agent: its exception
      is raised again, a retry loop never ends, and a reading is answered
      with its cards and text unchanged. */
  lemma PassedFollowsAgent(question: string, reading: Agent.ReadingOutcome)
    requires InputVerdict(question).isSafe && ContentVerdict(question).isSafe
    ensures var outcome := SafeOutcomeOf(question, reading);
            (reading.Raised? <==> outcome.Failed?)
            && (reading.Raised? ==> outcome.message == reading.message)
            && (reading.RetriesForever? <==> outcome.Hangs?)
            && (reading.Delivered? <==> outcome.Answered?)
            && (reading.Delivered? ==>
                  outcome.result.cards == reading.cards && outcome.result.reading == reading.reading)
  {
  }

  /** On an answered question the warning is present exactly when output
      screening failed, and then carries its reason; the metadata records
      an input confidence of 1.0, an appropriate content and the output
      screening's confidence, a share. */
  lemma AnsweredDecoration(question: string, reading: Agent.ReadingOutcome)
    requires SafeOutcomeOf(question, reading).Answered?
    ensures reading.Delivered?
    ensures var r := SafeOutcomeOf(question, reading).result;
            var output := OutputVerdict(reading.reading, Names(reading.cards));
            (r.warning.Some? <==> !output.isSafe)
            && (r.warning.Some? ==> r.warning == output.reason)
            && r.metadata.inputConfidence == 1.0
            && r.metadata.contentAppropriate
            && r.metadata.outputQuality == output.confidence
            && 0.0 <= r.metadata.outputQuality <= 1.0
  {
    InputVerdictSafeIff(question);
    OutputVerdictSafeIff(reading.reading, Names(reading.cards));
  }

  // ---------------------------------------------------------------------
  // The demonstration questions
  // ---------------------------------------------------------------------

  /** Python's `s * n`. */
  function Repeat(s: string, n: nat): (r: string)
    ensures |r| == |s| * n
    ensures forall i :: 0 <= i < |r| ==> r[i] in s
  {
    if n == 0 then "" else s + Repeat(s, n - 1)
  }

  /** The empty question is refused as empty. */
  lemma EmptyQuestionRefused(reading: Agent.ReadingOutcome)
    ensures SafeOutcomeOf("", reading) == Refused(InvalidRequestPrefix + EmptyReason)
  {
  }

  const RunOfA: string := "aaaaaaaaaaaaaaaaaaaaaa"

  /** The demonstration's long question, `"a" * 22` fifty times over, has
      1100 characters, all of them `a`. */
  lemma LongQuestionShape()
    ensures |Repeat(RunOfA, 50)| == 1100
    ensures forall i :: 0 <= i < 1100 ==> Repeat(RunOfA, 50)[i] == 'a'
  {
    var q := Repeat(RunOfA, 50);
    forall i | 0 <= i < 1100
      ensures q[i] == 'a'
    {
      assert q[i] in RunOfA;
    }
  }

  /** A question over 500 characters long that opens with six `a`s is
      refused by the length check, which comes before the spam check that
      the run of `a`s would also fail. */
  lemma LongRunRefused(q: string, reading: Agent.ReadingOutcome)
    requires |q| > MaxQuestionLength && q[..6] == "aaaaaa"
    ensures SafeOutcomeOf(q, reading) == Refused(InvalidRequestPrefix + TooLongReason)
    ensures IsSpam(q)
  {
    assert q[0] == q[..6][0] && !IsSpace(q[0]);
    assert RunAt(q, 0) by {
      assert q[1] == q[..6][1] && q[2] == q[..6][2] && q[3] == q[..6][3];
      assert q[4] == q[..6][4] && q[5] == q[..6][5];
    }
  }

  /** The demonstration's long question is refused as too long. */
  lemma LongQuestionRefused(reading: Agent.ReadingOutcome)
    ensures SafeOutcomeOf(Repeat(RunOfA, 50), reading) == Refused(InvalidRequestPrefix + TooLongReason)
  {
    var q := Repeat(RunOfA, 50);
    LongQuestionShape();
    assert q[..6] == "aaaaaa";
    LongRunRefused(q, reading);
  }

  /** A question that passes input validation and mentions a medical
      keyword, as the demonstration's question about a diagnosis does, is
      refused as a medical question whatever the agent would answer. */
  lemma MedicalQuestionRefused(q: string, reading: Agent.ReadingOutcome, k: nat)
    requires InputVerdict(q).isSafe
    requires k < |MedicalKeywords| && Contains(Lower(q), MedicalKeywords[k])
    ensures SafeOutcomeOf(q, reading) == Refused(InappropriatePrefix + MedicalReason)
  {
    ContentVerdictIff(q);
  }

  // ---------------------------------------------------------------------
  // get_guardrails_report
  // ---------------------------------------------------------------------

  const Healthy: string := "healthy"
  const AttentionNeeded: string := "attention_needed"

  /** The `summary` part of the report. */
  datatype Summary = Summary(
    totalRequests: nat,
    blockedRequests: nat,
    successRate: real,
    averageProcessingTime: real)

  datatype Report = Report(summary: Summary, detailedStats: Stats, status: string)

  /** `get_guardrails_report`. */
  function GuardrailsReport(g: TarotGuardrails): (report: Report)
    reads g
  {
    var stats := g.GetStats();
    Report(Summary(stats.totalRequests, stats.blockedRequests, (1.0 - stats.blockRate) * 100.0,
                   stats.averageProcessingTime),
           stats,
           if stats.blockRate < 0.1 then Healthy else AttentionNeeded)
  }

  /** The success rate is the percentage of requests not blocked, and the
      guardrails are healthy exactly when fewer than one request in ten
      was blocked (always, before any request). */
  lemma ReportMeaning(g: TarotGuardrails)
    requires g.Valid()
    ensures var r := GuardrailsReport(g);
            && 0.0 <= r.summary.successRate <= 100.0
            && (g.totalRequests == 0 ==> r.summary.successRate == 100.0 && r.status == Healthy)
            && (g.totalRequests > 0 ==>
                  r.summary.successRate * g.totalRequests as real
                  == 100.0 * (g.totalRequests - g.blockedRequests) as real)
            && (r.status == Healthy <==> 10 * g.blockedRequests < g.totalRequests || g.totalRequests == 0)
            && (r.status == AttentionNeeded <==> r.status != Healthy)
  {
    var s := g.GetStats();
    if g.totalRequests > 0 {
      var n := g.totalRequests as real;
      assert s.blockRate * n == g.blockedRequests as real;
      assert (1.0 - s.blockRate) * 100.0 * n == 100.0 * (n - s.blockRate * n);
      RateBelowTenth(s.blockRate, n, g.blockedRequests as real);
    }
  }

  /** A rate `b / n` is below 0.1 exactly when ten times `b` is below `n`. */
  lemma RateBelowTenth(rate: real, n: real, b: real)
    requires n > 0.0 && rate * n == b
    ensures rate < 0.1 <==> 10.0 * b < n
  {
    if rate < 0.1 {
      assert (0.1 - rate) * n > 0.0;
    } else {
      assert (rate - 0.1) * n >= 0.0;
    }
  }
}
