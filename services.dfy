/** The two remote services as the turn pipeline sees them: the requests it
    sends to the RecallIO memory service and to the OpenAI completion
    service, and the outcomes it can get back. The services themselves are
    not modelled; each call is replaced by an outcome value. */
module Services {
  import opened Wrappers
  import opened Json

  /** Whose memory a request is about: `user_id` and `project_id` from the
      `recallio` section of the configuration. */
  datatype Identity = Identity(userId: Json, projectId: Json)

  /** `MemoryWriteRequest`. */
  datatype WriteRequest = WriteRequest(userId: Json, projectId: Json, content: string, consentFlag: bool)

  /** The similarity threshold, kept as the literal the source writes: the
      model never computes with it. */
  datatype Threshold = Threshold(literal: string)

  /** `MemoryRecallRequest`. */
  datatype RecallRequest = RecallRequest(
    projectId: Json,
    userId: Json,
    query: string,
    scope: string,
    summarized: bool,
    similarityThreshold: Threshold,
    limit: int)

  const UserScope: string := "user"
  const SimilarityThreshold: Threshold := Threshold("0.5")
  const RecallLimit: int := 10

  /** The write that records the user's text, always with consent set. */
  function WriteRequestFor(id: Identity, text: string): (req: WriteRequest)
    ensures req.content == text && req.consentFlag
    ensures req.userId == id.userId && req.projectId == id.projectId
  {
    WriteRequest(id.userId, id.projectId, text, true)
  }

  /** The recall that looks up memory related to the user's text, with the
      fixed scope, summarisation flag, threshold and limit. */
  function RecallRequestFor(id: Identity, text: string): (req: RecallRequest)
    ensures req.query == text && req.scope == "user" && req.summarized && req.limit > 0
    ensures req.userId == id.userId && req.projectId == id.projectId
  {
    RecallRequest(id.projectId, id.userId, text, UserScope, true, SimilarityThreshold, RecallLimit)
  }

  /** What reading an attribute of a returned record yields in Python: the
      attribute is absent, holds `None`, or holds a string. */
  datatype Attr = Absent | NoneValue | Str(s: string)

  /** A record returned by `recall_memory`, seen through the two attributes
      the source reads. */
  datatype MemoryRecord = MemoryRecord(content: Attr, summary: Attr)

  /** `write_memory` returned, or raised. */
  datatype WriteOutcome = WriteOk | WriteErr

  /** `recall_memory` returned a list, raised `RecallioAPIError`, or raised
      any other exception. */
  datatype RecallOutcome = Records(records: seq<MemoryRecord>) | ApiError | OtherError

  datatype Role = System | User

  /** One `{'role': ..., 'content': ...}` entry of the prompt. */
  datatype Message = Message(role: Role, content: string)

  /** `chat.completions.create` returned a first choice whose message content
      is a string or `None`, or it raised (an empty `choices` list counts as
      raising). */
  datatype GenOutcome = Completion(content: Option<string>) | GenErr

  /** `getattr(rec, 'content', '') or getattr(rec, 'summary', '')`: the first
      non-empty of the two attributes, else empty. That expression can also
      evaluate to `None`; the source only ever tests it for truth, so `None`
      is modelled as the empty string. */
  function ContentOrSummary(rec: MemoryRecord): (text: string)
    ensures rec.content.Str? && rec.content.s != [] ==> text == rec.content.s
    ensures text != [] ==> rec.content == Str(text) || rec.summary == Str(text)
    ensures text == [] <==> !(rec.content.Str? && rec.content.s != []) && !(rec.summary.Str? && rec.summary.s != [])
  {
    if rec.content.Str? && rec.content.s != [] then rec.content.s
    else if rec.summary.Str? then rec.summary.s
    else ""
  }

  /** `rec.content` read as a plain attribute: `None` when the attribute is
      absent (Python raises `AttributeError`), and otherwise the text, with a
      `None` value read as empty because it is only tested for truth. */
  function ContentAttr(rec: MemoryRecord): (text: Option<string>)
    ensures text.None? <==> rec.content.Absent?
    ensures text.Some? && text.value != [] ==> rec.content == Str(text.value)
    ensures text == Some("") ==> rec.content == NoneValue || rec.content == Str("")
  {
    match rec.content
    case Absent => None
    case NoneValue => Some("")
    case Str(s) => Some(s)
  }

  const SummaryPrefix: string := "Recalled Summary: "

  /** The shape every prompt of a turn has: at most one leading system message
      carrying a non-empty recalled summary after the fixed prefix, then
      exactly one user message. */
  predicate WellFormedPrompt(p: seq<Message>) {
    && (|p| == 1 || |p| == 2)
    && p[|p| - 1].role == User
    && (|p| == 2 ==>
          && p[0].role == System
          && |p[0].content| > |SummaryPrefix|
          && p[0].content[..|SummaryPrefix|] == SummaryPrefix)
  }

  /** The prompt built for a turn: the system message exactly when there is a
      summary, and the user's text last. */
  function BuildPrompt(summary: string, text: string): (p: seq<Message>)
    ensures WellFormedPrompt(p)
    ensures |p| == 2 <==> summary != []
    ensures p[|p| - 1] == Message(User, text)
  {
    var messages := if summary != [] then [Message(System, SummaryPrefix + summary)] else [];
    messages + [Message(User, text)]
  }

  /** The summary a well-formed prompt carries ("" when it has no system
      message). */
  function RecalledSummary(p: seq<Message>): string
    requires WellFormedPrompt(p)
  {
    if |p| == 2 then p[0].content[|SummaryPrefix|..] else ""
  }

  /** The user's text a well-formed prompt carries. */
  function PromptText(p: seq<Message>): string
    requires WellFormedPrompt(p)
  {
    p[|p| - 1].content
  }

  /** The summary and the text can be read back from the prompt built from
      them. */
  lemma PromptRoundTrip(summary: string, text: string)
    ensures RecalledSummary(BuildPrompt(summary, text)) == summary
    ensures PromptText(BuildPrompt(summary, text)) == text
  {
  }

  /** Every well-formed prompt is the one built from the summary and the text
      it carries, so BuildPrompt produces exactly the well-formed prompts. */
  lemma PromptComplete(p: seq<Message>)
    requires WellFormedPrompt(p)
    ensures BuildPrompt(RecalledSummary(p), PromptText(p)) == p
  {
    if |p| == 2 {
      var c := p[0].content;
      assert SummaryPrefix + c[|SummaryPrefix|..] == c;
    }
  }
}
