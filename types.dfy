/** The records of src/types/search.ts. Every string field is a `string`, every
    JavaScript `number` timestamp a `nat` (milliseconds since the epoch). */
module SearchTypes {

  datatype Option<+T> = None | Some(value: T)

  /** One supporting source shown under an answer: exactly four strings. */
  datatype Source = Source(title: string, url: string, snippet: string, domain: string)

  /** The answer the UI shows for one query. `isStreaming` is optional in the
      interface, hence an `Option<bool>`. */
  datatype SearchResult = SearchResult(
    id: string,
    query: string,
    response: string,
    sources: seq<Source>,
    followUpQuestions: seq<string>,
    timestamp: nat,
    isStreaming: Option<bool>)

  /** One recorded query of one user; it carries no response and no sources. */
  datatype SearchHistory = SearchHistory(id: string, query: string, userId: string, timestamp: nat)
}
