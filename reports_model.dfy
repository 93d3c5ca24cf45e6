/** The report document kept per reported user: one entry per report (the chat
    and an excerpt of its messages) and a `count` that the pre-save hook
    recomputes from the entries. */
module ReportsModel {
  import opened Common
  import opened ChatModel

  /** An excerpt message as the report schema declares it: `sender` and a
      `content` of type `String`. */
  datatype ExcerptMessage = ExcerptMessage(sender: Id, content: string)

  datatype ReportEntry = ReportEntry(chatId: Id, recentMessages: seq<ExcerptMessage>)

  /** The cast of chat messages into excerpt messages. A chat message's
      `content` is the object `{ iv, encryptedData }`, and the `String` cast
      refuses an object that has no `toString` of its own, so the cast of the
      excerpt fails as soon as it holds a message. */
  function CastExcerpt(messages: seq<Message>): (r: Option<seq<ExcerptMessage>>)
    ensures r.Some? <==> messages == []
    ensures r.Some? ==> r.value == []
  {
    if messages == [] then Some([]) else None
  }

  /** The value of a report document. */
  datatype ReportDoc = ReportDoc(user: Id, reportedFrom: seq<ReportEntry>, count: int)

  /** The report as the pre-save hook leaves it: `count` overwritten by the
      number of entries. */
  function Saved(d: ReportDoc): (r: ReportDoc)
    ensures r.user == d.user && r.reportedFrom == d.reportedFrom
    ensures r.count == |d.reportedFrom|
  {
    d.(count := |d.reportedFrom|)
  }

  /** One more entry (`reportedFrom.push`). */
  function WithEntry(d: ReportDoc, e: ReportEntry): ReportDoc
  {
    d.(reportedFrom := d.reportedFrom + [e])
  }

  /** Whatever `count` held before is discarded, not incremented. */
  lemma SavedIgnoresStoredCount(d: ReportDoc, stale: int)
    ensures Saved(d.(count := stale)) == Saved(d)
  {
  }

  /** Appending one entry to a saved report and saving again raises `count` by one. */
  lemma AppendThenSave(d: ReportDoc, e: ReportEntry)
    ensures Saved(WithEntry(Saved(d), e)).count == Saved(d).count + 1
  {
  }

  class Report {
    var user: Id
    var reportedFrom: seq<ReportEntry>
    var count: int

    function Doc(): ReportDoc
      reads this
    {
      ReportDoc(user, reportedFrom, count)
    }

    /** A new document: `count` starts at its schema default 0. */
    constructor (user: Id, reportedFrom: seq<ReportEntry>)
      ensures Doc() == ReportDoc(user, reportedFrom, 0)
    {
      this.user := user;
      this.reportedFrom := reportedFrom;
      count := 0;
    }

    /** The pre-save hook. */
    method Save()
      modifies this`count
      ensures Doc() == Saved(old(Doc()))
    {
      count := |reportedFrom|;
    }
  }
}
