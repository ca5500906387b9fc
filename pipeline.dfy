/** One conversation turn, as both entry points run it: record the user's
    text, recall related memory, build the prompt, ask for a completion. The
    two copies differ only in how they read the recalled record and what they
    do with the reply, so the turn is written once and parameterised by which
    copy runs it. The remote calls are replaced by their outcomes, and the
    turn reports the calls it issued, in order. */
module Pipeline {
  import opened Wrappers
  import opened Text
  import opened Services

  /** Which copy of the pipeline runs: the desktop client or the HTTP server. */
  datatype Variant = Desktop | Http

  /** The three remote steps of a turn, in the order they are issued. */
  datatype Stage = WriteStage | RecallStage | GenerateStage

  const StageOrder: seq<Stage> := [WriteStage, RecallStage, GenerateStage]

  /** The fixed text both copies show when a stage fails (the exception's own
      message that follows it is not modelled). */
  function StageMessage(stage: Stage): string {
    match stage
    case WriteStage => "RecallIO write failed"
    case RecallStage => "RecallIO recall failed"
    case GenerateStage => "OpenAI error"
  }

  /** A remote call the turn issued. */
  datatype Call = WriteCall(write: WriteRequest) | RecallCall(recall: RecallRequest) | GenerateCall(prompt: seq<Message>) {
    function StageOf(): Stage {
      match this
      case WriteCall(_) => WriteStage
      case RecallCall(_) => RecallStage
      case GenerateCall(_) => GenerateStage
    }
  }

  /** How a turn ended: with a reply (the server passes a `None` content
      through, hence the option), or aborted at a stage. */
  datatype Outcome = Answered(reply: Option<string>) | Aborted(stage: Stage)

  /** The calls a turn issued, the recalled summary it settled on ("" when
      none), and how it ended. */
  datatype Turn = Turn(calls: seq<Call>, summary: string, outcome: Outcome)

  /** The summary the recall step settles on, or None when that step ends in
      an exception other than `RecallioAPIError`. The desktop client reads
      `content`, falling back to `summary`; the server reads only `content`,
      as a plain attribute. */
  function SummaryFrom(v: Variant, recall: RecallOutcome): (summary: Option<string>)
    ensures summary.None? <==>
      recall.OtherError? || (v.Http? && recall.Records? && recall.records != [] && recall.records[0].content.Absent?)
    ensures recall.ApiError? || recall == Records([]) ==> summary == Some("")
    ensures summary.Some? && summary.value != [] ==>
      && recall.Records? && recall.records != []
      && (recall.records[0].content == Str(summary.value) || (v == Desktop && recall.records[0].summary == Str(summary.value)))
  {
    match recall
    case ApiError => Some("")
    case OtherError => None
    case Records(records) =>
      if records == [] then Some("")
      else if v == Desktop then Some(ContentOrSummary(records[0]))
      else ContentAttr(records[0])
  }

  /** What the generation step makes of the first choice's content. The
      desktop client strips it inside the `try`, so a `None` content raises
      there; the server returns it as it is. */
  function Finish(v: Variant, content: Option<string>): (outcome: Outcome)
    ensures outcome.Aborted? <==> v == Desktop && content.None?
    ensures outcome.Aborted? ==> outcome.stage == GenerateStage
    ensures outcome.Answered? && v == Desktop ==> outcome.reply.Some? && (outcome.reply.value == [] <==> AllSpace(content.value))
    ensures v == Http ==> outcome == Answered(content)
  {
    match v
    case Desktop => if content.Some? then Answered(Some(Strip(content.value))) else Aborted(GenerateStage)
    case Http => Answered(content)
  }

  /** One turn for the (already stripped) user text. */
  function RunTurn(v: Variant, id: Identity, text: string, w: WriteOutcome, r: RecallOutcome, g: GenOutcome): (t: Turn)
    ensures 1 <= |t.calls| <= |StageOrder|
    ensures forall k :: 0 <= k < |t.calls| ==> t.calls[k].StageOf() == StageOrder[k]
    ensures t.outcome.Aborted? ==> t.outcome.stage == t.calls[|t.calls| - 1].StageOf()
    ensures t.outcome.Answered? || t.summary != [] ==> |t.calls| == |StageOrder|
  {
    var write := WriteCall(WriteRequestFor(id, text));
    if w == WriteErr then Turn([write], "", Aborted(WriteStage))
    else
      var recall := RecallCall(RecallRequestFor(id, text));
      var summary := SummaryFrom(v, r);
      if summary.None? then Turn([write, recall], "", Aborted(RecallStage))
      else
        var generate := GenerateCall(BuildPrompt(summary.value, text));
        var outcome := match g
          case GenErr => Aborted(GenerateStage)
          case Completion(content) => Finish(v, content);
        Turn([write, recall, generate], summary.value, outcome)
  }

  /** The first call records the user's text with consent set, and no other
      call is a write: the reply is never persisted. */
  lemma WriteRecordsUserTextOnly(v: Variant, id: Identity, text: string, w: WriteOutcome, r: RecallOutcome, g: GenOutcome)
    ensures var t := RunTurn(v, id, text, w, r, g);
      && t.calls[0] == WriteCall(WriteRequest(id.userId, id.projectId, text, true))
      && forall k :: 0 <= k < |t.calls| && t.calls[k].WriteCall? ==> k == 0
  {
  }

  /** A failed write ends the turn before recall and generation. */
  lemma WriteFailureAborts(v: Variant, id: Identity, text: string, r: RecallOutcome, g: GenOutcome)
    ensures var t := RunTurn(v, id, text, WriteErr, r, g);
      && t.calls == [WriteCall(WriteRequestFor(id, text))]
      && t.outcome == Aborted(WriteStage)
  {
  }

  /** After a successful write the recall always carries the user's text as
      its query and the fixed parameters, with a positive limit. */
  lemma RecallRequestFixed(v: Variant, id: Identity, text: string, r: RecallOutcome, g: GenOutcome)
    ensures var t := RunTurn(v, id, text, WriteOk, r, g);
      && |t.calls| >= 2
      && t.calls[1] == RecallCall(RecallRequest(id.projectId, id.userId, text, "user", true, Threshold("0.5"), 10))
      && t.calls[1].recall.limit > 0
  {
  }

  /** `RecallioAPIError` degrades to an empty summary: generation still runs,
      on a prompt holding only the user's message. */
  lemma RecallApiErrorDegrades(v: Variant, id: Identity, text: string, g: GenOutcome)
    ensures var t := RunTurn(v, id, text, WriteOk, ApiError, g);
      && t.summary == ""
      && |t.calls| == 3
      && t.calls[2] == GenerateCall([Message(User, text)])
  {
  }

  /** Any other exception from recall ends the turn: generation never runs. */
  lemma RecallOtherErrorAborts(v: Variant, id: Identity, text: string, g: GenOutcome)
    ensures var t := RunTurn(v, id, text, WriteOk, OtherError, g);
      && t.outcome == Aborted(RecallStage)
      && forall k :: 0 <= k < |t.calls| ==> !t.calls[k].GenerateCall?
  {
  }

  /** Generation is requested exactly when the write succeeded and the recall
      step did not end the turn. */
  lemma GenerationIssuedIff(v: Variant, id: Identity, text: string, w: WriteOutcome, r: RecallOutcome, g: GenOutcome)
    ensures var t := RunTurn(v, id, text, w, r, g);
      (exists k :: 0 <= k < |t.calls| && t.calls[k].GenerateCall?) <==> w == WriteOk && SummaryFrom(v, r).Some?
  {
    var t := RunTurn(v, id, text, w, r, g);
    if w == WriteOk && SummaryFrom(v, r).Some? {
      assert t.calls[2].GenerateCall?;
    }
  }

  /** Every prompt a turn sends is well formed, carries the user's text last,
      and carries the turn's summary, in a system message, exactly when that
      summary is non-empty. */
  lemma PromptShape(v: Variant, id: Identity, text: string, w: WriteOutcome, r: RecallOutcome, g: GenOutcome, k: nat)
    requires var t := RunTurn(v, id, text, w, r, g); k < |t.calls| && t.calls[k].GenerateCall?
    ensures var t := RunTurn(v, id, text, w, r, g); var p := t.calls[k].prompt;
      && WellFormedPrompt(p)
      && PromptText(p) == text
      && RecalledSummary(p) == t.summary
      && (p[0].role == System <==> t.summary != [])
  {
  }

  /** In the desktop client the summary is the first record's `content`, or
      its `summary` when `content` is missing or empty; an empty list gives
      "". The recall step never ends the turn on a returned list. */
  lemma DesktopSummaryRule(id: Identity, text: string, records: seq<MemoryRecord>, g: GenOutcome)
    ensures var t := RunTurn(Desktop, id, text, WriteOk, Records(records), g);
      && |t.calls| == 3
      && (records == [] ==> t.summary == "")
      && (records != [] && records[0].content.Str? && records[0].content.s != [] ==> t.summary == records[0].content.s)
      && (records != [] && !(records[0].content.Str? && records[0].content.s != []) ==>
            t.summary == if records[0].summary.Str? then records[0].summary.s else "")
  {
  }

  /** In the server the summary is the first record's `content` and nothing
      else; an empty list gives "", and a first record without a `content`
      attribute raises inside the recall step and ends the turn. */
  lemma HttpSummaryRule(id: Identity, text: string, records: seq<MemoryRecord>, g: GenOutcome)
    ensures var t := RunTurn(Http, id, text, WriteOk, Records(records), g);
      && (records == [] ==> t.summary == "" && |t.calls| == 3)
      && (records != [] && records[0].content.Absent? ==> t.outcome == Aborted(RecallStage))
      && (records != [] && records[0].content.NoneValue? ==> t.summary == "" && |t.calls| == 3)
      && (records != [] && records[0].content.Str? ==> t.summary == records[0].content.s && |t.calls| == 3)
  {
  }

  /** Only the first record counts: records after it change nothing. */
  lemma FirstRecordOnly(v: Variant, id: Identity, text: string, first: MemoryRecord, rest: seq<MemoryRecord>, g: GenOutcome)
    ensures RunTurn(v, id, text, WriteOk, Records([first] + rest), g) == RunTurn(v, id, text, WriteOk, Records([first]), g)
  {
  }

  /** A failed generation ends the turn, whatever recall returned, and a turn
      that answers had a completion. */
  lemma GenerationFailureAborts(v: Variant, id: Identity, text: string, w: WriteOutcome, r: RecallOutcome, g: GenOutcome)
    ensures var t := RunTurn(v, id, text, w, r, g);
      && (g == GenErr ==> t.outcome.Aborted?)
      && (t.outcome.Answered? ==> g.Completion?)
  {
  }

  /** The desktop client answers with the stripped content, and a `None`
      content ends its turn at the generation stage; the server answers with
      the content as it came. */
  lemma ReplyRule(v: Variant, id: Identity, text: string, w: WriteOutcome, r: RecallOutcome, content: Option<string>)
    ensures var t := RunTurn(v, id, text, w, r, Completion(content));
      |t.calls| == 3 ==>
        match v
        case Desktop => t.outcome == (if content.Some? then Answered(Some(Strip(content.value))) else Aborted(GenerateStage))
        case Http => t.outcome == Answered(content)
  {
  }

  /** The recall outcome reads the same in both copies: no first record, or a
      first record whose `content` is a non-empty string. */
  predicate ContentDecides(r: RecallOutcome) {
    !r.Records? || r.records == [] || (r.records[0].content.Str? && r.records[0].content.s != [])
  }

  /** The two copies differ only in summary extraction and reply handling:
      when the first record's `content` settles the summary, both issue the
      same calls, reach the same summary and abort alike; where the server
      answers with a content the desktop client answers with that content
      stripped, and where the server answers with a `None` content the
      desktop client aborts at the generation stage. */
  lemma CopiesAgree(id: Identity, text: string, w: WriteOutcome, r: RecallOutcome, g: GenOutcome)
    requires ContentDecides(r)
    ensures var d := RunTurn(Desktop, id, text, w, r, g); var h := RunTurn(Http, id, text, w, r, g);
      && d.calls == h.calls
      && d.summary == h.summary
      && (h.outcome.Aborted? ==> d.outcome == h.outcome)
      && (h.outcome == Answered(None) ==> d.outcome == Aborted(GenerateStage))
      && (h.outcome.Answered? && h.outcome.reply.Some? ==> d.outcome == Answered(Some(Strip(h.outcome.reply.value))))
  {
  }
}
