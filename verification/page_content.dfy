/** The cap on page content fed to the answer prompt
    (app/services/openai.ts, MAX_SEARCH_PAGE_CONTENT_CHARS). */
module PageContent {

  /** At most this many characters of a page reach the prompt. */
  const MaxPageContentChars: nat := 5000

  /** Appended to content that was cut. */
  const TruncationMarker: string := "..."

  /** The content that reaches the prompt: short pages unchanged, long
      pages cut to their first 5000 characters and marked. */
  function Truncate(content: string): (r: string)
    ensures |content| <= MaxPageContentChars ==> r == content
    ensures |content| > MaxPageContentChars ==>
              && |r| == MaxPageContentChars + |TruncationMarker| == 5003
              && r[..MaxPageContentChars] == content[..MaxPageContentChars]
              && r[MaxPageContentChars..] == TruncationMarker
    ensures |r| <= MaxPageContentChars + |TruncationMarker|
  {
    if |content| > MaxPageContentChars then
      content[..MaxPageContentChars] + TruncationMarker
    else
      content
  }

  /** Exactly which pages reach the prompt unchanged: those within the cap,
      and those of exactly 5003 characters that already end in the marker
      (the cut is then invisible in the prompt). */
  lemma TruncateFixedPoints(content: string)
    ensures Truncate(content) == content
            <==> (|content| <= MaxPageContentChars
                  || (|content| == MaxPageContentChars + |TruncationMarker|
                      && content[MaxPageContentChars..] == TruncationMarker))
  {
  }
}
