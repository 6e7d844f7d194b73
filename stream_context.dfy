/**
 * The per-turn bookkeeping of the stream processor: the placeholder
 * message, the streamed document text, the node outputs captured on the
 * way and the id of the document persisted when the content agent ends.
 */
module WebSocketEventHandler {
  import opened Wrappers
  import opened Json

  /** The four fields as a value. */
  datatype Ctx = Ctx(placeholderMessageId: Option<int>, accumulatedContent: string,
                     finalResult: map<string, Json>, docId: Option<int>)

  /** A context as it is before the first event. */
  predicate IsFresh(c: Ctx) {
    c.placeholderMessageId.None? && c.accumulatedContent == "" && c.finalResult == map[] && c.docId.None?
  }

  class StreamContext {
    var placeholderMessageId: Option<int>
    var accumulatedContent: string
    var finalResult: map<string, Json>
    /** The document persisted when content_agent ended, for post_process to use. */
    var docId: Option<int>

    function Value(): Ctx
      reads this
    {
      Ctx(placeholderMessageId, accumulatedContent, finalResult, docId)
    }

    /** A new context has no placeholder, no text, no captured output and no document. */
    constructor ()
      ensures placeholderMessageId.None?
      ensures accumulatedContent == ""
      ensures finalResult == map[]
      ensures docId.None?
      ensures IsFresh(Value())
    {
      placeholderMessageId, accumulatedContent, finalResult, docId := None, "", map[], None;
    }

  }
}
