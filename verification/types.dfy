/** Values shared by the search and summary services (app/types.ts), and the
    small sequence helpers the summary pipeline needs. */
module Types {

  /** A search result as the summary pipeline reads it. The other fields of
      the record (position, favicon, sitelinks, ...) are never consulted. */
  datatype SearchResult = SearchResult(title: string, link: string, snippet: string)

  /** The outcome of a call that may throw. */
  datatype Result<+T, +E> = Ok(value: T) | Err(error: E)

  /** The failures the summary logic itself can raise. Indexing an empty
      array yields `undefined`, and reading `link` from it throws a
      `TypeError`. */
  datatype Failure = UndefinedSearchResult

  function Last<T>(xs: seq<T>): T
    requires |xs| > 0
  {
    xs[|xs| - 1]
  }

  /** `Array.prototype.join(sep)` on an array of strings. */
  function Join(parts: seq<string>, sep: string): string
  {
    if |parts| == 0 then ""
    else if |parts| == 1 then parts[0]
    else parts[0] + sep + Join(parts[1..], sep)
  }

  /** Appending one more part extends the joined string by the separator
      and that part, so a growing list of answers gives a growing prompt. */
  lemma {:induction false} JoinAppend(parts: seq<string>, part: string, sep: string)
    ensures Join(parts + [part], sep)
            == if |parts| == 0 then part else Join(parts, sep) + sep + part
  {
    if |parts| == 0 {
      assert parts + [part] == [part];
    } else if |parts| == 1 {
      assert (parts + [part])[1..] == [part];
    } else {
      assert (parts + [part])[1..] == parts[1..] + [part];
      JoinAppend(parts[1..], part, sep);
    }
  }
}
