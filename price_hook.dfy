/** The data side of the `usePriceData` hook (frontend/src/hooks/usePriceData.ts): the 24-hour
    window filter, the ascending sort of the history, the checks on the two API replies, the
    choice of the error text, and the hook's state as `fetchData` updates it. Timestamps are
    integer milliseconds; the current time is a parameter. */
module PriceHook {
  import opened Wrappers
  import opened JsArray

  /** Twenty-four hours in milliseconds. */
  const Hours24: int := 24 * 60 * 60 * 1000

  /** One history point as the frontend receives it. */
  datatype PriceData = PriceData(timestamp: int, symbol: string, currency: string, latestPrice: real)

  /** The filter's callback: the item lies in `[now - 24h, now]`, both ends included. */
  predicate InLast24Hours(item: PriceData, now: int) {
    item.timestamp >= now - Hours24 && item.timestamp <= now
  }

  /** `filterLast24Hours`: the items of the last day, in their original order. */
  function FilterLast24Hours(data: seq<PriceData>, now: int): (r: seq<PriceData>)
    ensures IsSubsequence(r, data)
    ensures forall item :: item in r <==> item in data && now - 86_400_000 <= item.timestamp <= now
    ensures forall item :: multiset(r)[item] == if now - 86_400_000 <= item.timestamp <= now then multiset(data)[item] else 0
  {
    Filter(data, (item: PriceData) => InLast24Hours(item, now))
  }

  /** The window's edges: exactly 24 hours ago and exactly now are kept, one millisecond
      further out on either side is dropped. */
  lemma {:induction false} FilterLast24HoursEdges(p: PriceData, now: int)
    ensures p.(timestamp := now - 86_400_000) in FilterLast24Hours([p.(timestamp := now - 86_400_000)], now)
    ensures p.(timestamp := now) in FilterLast24Hours([p.(timestamp := now)], now)
    ensures FilterLast24Hours([p.(timestamp := now - 86_400_001)], now) == []
    ensures FilterLast24Hours([p.(timestamp := now + 1)], now) == []
  {
    var early := p.(timestamp := now - 86_400_001);
    var late := p.(timestamp := now + 1);
    assert [early][1..] == [] && [late][1..] == [];
  }

  /** Ascending by timestamp, as the comparator `a.t - b.t` orders. */
  predicate SortedByTimestamp(s: seq<PriceData>) {
    forall k, l :: 0 <= k < l < |s| ==> s[k].timestamp <= s[l].timestamp
  }

  /** `filteredHistory.sort(...)`: sorts the array in place into ascending timestamp order,
      rearranging its elements and nothing else. */
  method SortByTimestamp(a: array<PriceData>)
    modifies a
    ensures SortedByTimestamp(a[..])
    ensures multiset(a[..]) == multiset(old(a[..]))
  {
    for i := 0 to a.Length
      invariant SortedByTimestamp(a[..i])
      invariant multiset(a[..]) == multiset(old(a[..]))
    {
      InsertAt(a, i);
    }
    assert a[..a.Length] == a[..];
  }

  /** One insertion step: moves `a[i]` down into the sorted prefix `a[..i]`. */
  method InsertAt(a: array<PriceData>, i: nat)
    requires i < a.Length && SortedByTimestamp(a[..i])
    modifies a
    ensures SortedByTimestamp(a[..i + 1])
    ensures multiset(a[..]) == multiset(old(a[..]))
  {
    var j := i;
    while j > 0 && a[j - 1].timestamp > a[j].timestamp
      invariant 0 <= j <= i
      invariant forall k, l :: 0 <= k < l <= i && k != j && l != j ==> a[k].timestamp <= a[l].timestamp
      invariant forall l :: j < l <= i ==> a[j].timestamp <= a[l].timestamp
      invariant multiset(a[..]) == multiset(old(a[..]))
    {
      Swap(a, j - 1, j);
      j := j - 1;
    }
  }

  /** Exchanges two elements of the array. */
  method Swap(a: array<PriceData>, x: nat, y: nat)
    requires x < a.Length && y < a.Length
    modifies a
    ensures a[..] == old(a[..])[x := old(a[y])][y := old(a[x])]
    ensures multiset(a[..]) == multiset(old(a[..]))
  {
    a[x], a[y] := a[y], a[x];
  }

  /** The `meta` part of a backend reply. */
  datatype Meta = Meta(code: int, message: string)

  /** A backend reply: `meta` and a `data` payload. */
  datatype ApiReply<T> = ApiReply(meta: Meta, data: T)

  /** The history payload: an array of points, or anything else. */
  datatype HistoryPayload = Items(items: seq<PriceData>) | NotAnArray

  /** JavaScript's `s || fallback` on strings: the empty string is falsy. */
  function OrElse(s: string, fallback: string): (r: string)
    ensures r == (if s != [] then s else fallback)
  {
    if s != [] then s else fallback
  }

  /** The two `meta.code` checks: the message thrown, or `None` when both codes are 200.
      The current-price reply is checked first. */
  function MetaCheck(current: Meta, history: Meta): (r: Option<string>)
    ensures r.None? <==> current.code == 200 && history.code == 200
    ensures r.Some? ==> r.value != []
    ensures current.code != 200 ==> r == Some(OrElse(current.message, "Failed to fetch current price"))
    ensures current.code == 200 && history.code != 200 ==> r == Some(OrElse(history.message, "Failed to fetch price history"))
  {
    if current.code != 200 then Some(OrElse(current.message, "Failed to fetch current price"))
    else if history.code != 200 then Some(OrElse(history.message, "Failed to fetch price history"))
    else None
  }

  /** `error.response`, reduced to `response.data.meta.message` when it is present. */
  datatype AxiosResponse = AxiosResponse(metaMessage: Option<string>)

  /** What the `catch` clause may receive: an axios error (with or without a response, with or
      without a request sent), a plain `Error`, or any other thrown value. */
  datatype Thrown =
    | AxiosError(response: Option<AxiosResponse>, requestSent: bool, message: string)
    | PlainError(message: string)
    | NonError

  /** The error text chosen by the `catch` clause of `fetchData`. */
  function ErrorMessage(e: Thrown): (msg: string)
    ensures e.AxiosError? && e.response.Some? && e.response.value.metaMessage.Some? && e.response.value.metaMessage.value != []
            ==> msg == e.response.value.metaMessage.value
    ensures e.AxiosError? && e.response.Some? && (e.response.value.metaMessage.None? || e.response.value.metaMessage.value == [])
            ==> msg == "Server error occurred"
    ensures e.AxiosError? && e.response.None? && e.requestSent ==> msg == "No response from server. Please check your connection."
    ensures e.AxiosError? && e.response.None? && !e.requestSent ==> msg == e.message
    ensures e.PlainError? ==> msg == e.message
    ensures e.NonError? ==> msg == "An unexpected error occurred"
  {
    match e
    case AxiosError(response, requestSent, message) =>
      if response.Some? && response.value.metaMessage.Some? && response.value.metaMessage.value != [] then
        response.value.metaMessage.value
      else if response.Some? then "Server error occurred"
      else if requestSent then "No response from server. Please check your connection."
      else message
    case PlainError(message) => message
    case NonError => "An unexpected error occurred"
  }

  /** How the two requests of one fetch ended: both replied, or one of them threw. */
  datatype FetchOutcome =
    | Replied(current: ApiReply<Option<real>>, history: ApiReply<HistoryPayload>)
    | Threw(thrown: Thrown)

  /** The text of the failure a fetch ends in, or `None` when it succeeds. A failed meta check
      throws a plain `Error` carrying the checked message, which the `catch` clause reads back. */
  function FetchFailure(outcome: FetchOutcome): (r: Option<string>)
    ensures outcome.Threw? ==> r == Some(ErrorMessage(outcome.thrown))
    ensures outcome.Replied? ==> r == MetaCheck(outcome.current.meta, outcome.history.meta)
  {
    match outcome
    case Threw(thrown) => Some(ErrorMessage(thrown))
    case Replied(current, history) =>
      match MetaCheck(current.meta, history.meta)
      case Some(m) => Some(ErrorMessage(PlainError(m)))
      case None => None
  }

  /** The history points kept from a payload: a non-array payload gives none. */
  function WindowedHistory(payload: HistoryPayload, now: int): (r: seq<PriceData>)
    ensures payload.NotAnArray? ==> r == []
    ensures payload.Items? ==> r == FilterLast24Hours(payload.items, now)
  {
    match payload
    case Items(items) => FilterLast24Hours(items, now)
    case NotAnArray => []
  }

  /** `PriceState`. */
  datatype PriceState = PriceState(currentPrice: Option<real>, priceHistory: seq<PriceData>, isLoading: bool, error: Option<string>)

  /** The hook's state cell and the steps of its effect. */
  class PriceDataHook {
    var state: PriceState

    constructor()
      ensures state == PriceState(None, [], false, None)
    {
      state := PriceState(None, [], false, None);
    }

    /** The first `setState` of `fetchData`: loading, with the previous error cleared and the
        previous data kept. */
    method BeginFetch()
      modifies this
      ensures state == old(state).(isLoading := true, error := None)
    {
      state := state.(isLoading := true, error := None);
    }

    /** The rest of `fetchData`, once the requests have ended. On failure, the state holds no
        data and the error text prefixed with "Error: "; on success, it holds the reply's price
        and the last day's history, sorted ascending and nothing added or lost. */
    method FinishFetch(outcome: FetchOutcome, now: int)
      modifies this
      ensures FetchFailure(outcome).Some? ==> state == PriceState(None, [], false, Some("Error: " + FetchFailure(outcome).value))
      ensures FetchFailure(outcome).None? ==>
                && state.currentPrice == outcome.current.data
                && !state.isLoading && state.error.None?
                && SortedByTimestamp(state.priceHistory)
                && multiset(state.priceHistory) == multiset(WindowedHistory(outcome.history.data, now))
    {
      var failure := FetchFailure(outcome);
      if failure.Some? {
        state := state.(isLoading := false, error := Some("Error: " + failure.value), currentPrice := None, priceHistory := []);
        return;
      }
      var filtered := WindowedHistory(outcome.history.data, now);
      var history := new PriceData[|filtered|](k requires 0 <= k < |filtered| => filtered[k]);
      assert history[..] == filtered;
      SortByTimestamp(history);
      state := PriceState(outcome.current.data, history[..], false, None);
    }

    /** The effect run when `symbol` changes: nothing happens for the empty symbol; otherwise
        one fetch runs to completion. */
    method SymbolChanged(symbol: string, outcome: FetchOutcome, now: int)
      modifies this
      ensures symbol == [] ==> state == old(state)
      ensures symbol != [] && FetchFailure(outcome).Some? ==> state == PriceState(None, [], false, Some("Error: " + FetchFailure(outcome).value))
      ensures symbol != [] && FetchFailure(outcome).None? ==>
                && state.currentPrice == outcome.current.data
                && !state.isLoading && state.error.None?
                && SortedByTimestamp(state.priceHistory)
                && multiset(state.priceHistory) == multiset(WindowedHistory(outcome.history.data, now))
    {
      if symbol != [] {
        BeginFetch();
        FinishFetch(outcome, now);
      }
    }
  }

  /** A fetch succeeds exactly when nothing threw and both replies carry code 200; the error
      text is then never the bare prefix. */
  lemma FailureCases(outcome: FetchOutcome)
    ensures FetchFailure(outcome).None? <==> outcome.Replied? && outcome.current.meta.code == 200 && outcome.history.meta.code == 200
    ensures outcome.Replied? && FetchFailure(outcome).Some? ==> FetchFailure(outcome).value != []
  {
  }

  /** The message of a rejected request reaches the user unchanged: a backend error reply
      (which carries its HTTP status as `meta.code`, so axios rejects it) shows as
      "Error: " followed by the reply's `meta.message`. */
  lemma BackendMessageShown(message: string, requestSent: bool, axiosMessage: string)
    requires message != []
    ensures FetchFailure(Threw(AxiosError(Some(AxiosResponse(Some(message))), requestSent, axiosMessage))) == Some(message)
  {
  }
}
