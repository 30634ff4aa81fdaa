/** The daily quote card: one fetch on mount, then a skeleton while loading,
    a fixed fallback quote when nothing was delivered, or the quote itself. */
module DailyQuote {
  import opened Types
  import Api

  datatype QuoteState = QuoteState(quote: Option<Quote>, loading: bool)

  const InitialQuote: QuoteState := QuoteState(None, true)

  const FallbackText: string := "Every day is a new beginning. Take a deep breath and start again."
  const FallbackAuthor: string := "Anonymous"

  /** Only a delivered quote is kept; loading ends whatever happened. */
  function FetchQuote(s: QuoteState, settled: Settled<Quote>): (s': QuoteState)
    ensures !s'.loading
    ensures Delivered(settled) ==> s'.quote == settled.response.data
    ensures !Delivered(settled) ==> s'.quote == s.quote
  {
    if Delivered(settled) then QuoteState(settled.response.data, false) else s.(loading := false)
  }

  datatype QuoteView = QuoteSkeleton | ShowQuote(text: string, author: string)

  function View(s: QuoteState): (v: QuoteView)
    ensures v.QuoteSkeleton? <==> s.loading
    ensures !s.loading && s.quote.None? ==> v == ShowQuote(FallbackText, FallbackAuthor)
    ensures !s.loading && s.quote.Some? ==> v == ShowQuote(s.quote.value.text, s.quote.value.author)
  {
    if s.loading then QuoteSkeleton
    else if s.quote.None? then ShowQuote(FallbackText, FallbackAuthor)
    else ShowQuote(s.quote.value.text, s.quote.value.author)
  }

  /** After the single fetch the card never stays on the skeleton; it shows
      the delivered quote, or the fallback for a failed or thrown call. */
  lemma FetchSettlesView(settled: Settled<Quote>)
    ensures View(FetchQuote(InitialQuote, settled)) != QuoteSkeleton
    ensures Delivered(settled) ==>
      View(FetchQuote(InitialQuote, settled)) ==
      ShowQuote(settled.response.data.value.text, settled.response.data.value.author)
    ensures !Delivered(settled) ==> View(FetchQuote(InitialQuote, settled)) == ShowQuote(FallbackText, FallbackAuthor)
  {
  }

  /** In demo mode the card shows the fixture quote; outside it, a failed
      request, or a 2xx answer with a `null` body, falls back to the
      anonymous quote. */
  lemma QuoteFromFacade(loadedAt: Timestamp, outcome: Api.FetchOutcome<Quote>)
    ensures View(FetchQuote(InitialQuote, Resolved(Api.GetTodayQuote(true, loadedAt, outcome)))) ==
      ShowQuote("The only way to do great work is to love what you do.", "Steve Jobs")
    ensures !outcome.Ok? ==>
      View(FetchQuote(InitialQuote, Resolved(Api.GetTodayQuote(false, loadedAt, outcome)))) ==
      ShowQuote(FallbackText, FallbackAuthor)
  {
  }
}
