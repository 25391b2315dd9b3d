/**
 * The pure pieces of `NetBoxClient` (app/netbox_client.py): the request URL,
 * the reduction of a decoded body to a result value, and the connectivity
 * check. The HTTP exchange itself is a parameter: a `Transport` is what the
 * aiohttp session produced for one request.
 */
module NetBoxClient {
  import opened Json
  import opened PyStrings

  /** The URL `_fetch_data` requests: the query is appended verbatim, without URL encoding. */
  function RequestUrl(base: string, endpoint: string, query: string): string {
    if query != "" then base + endpoint + "/?q=" + query else base + endpoint + "/"
  }

  /** Every request goes below `base + endpoint + "/"`, and the query can be read back from the URL. */
  lemma RequestUrlShape(base: string, endpoint: string, query: string)
    ensures StartsWith(RequestUrl(base, endpoint, query), base + endpoint + "/")
    ensures var rest := RequestUrl(base, endpoint, query)[|base + endpoint + "/"|..];
            (query == "" <==> rest == "") && (query != "" ==> rest == "?q=" + query)
  {
    var prefix := base + endpoint + "/";
    if query != "" {
      assert RequestUrl(base, endpoint, query) == prefix + ("?q=" + query);
    }
  }

  /** Different queries to the same endpoint give different URLs. */
  lemma RequestUrlInjective(base: string, endpoint: string, q1: string, q2: string)
    requires RequestUrl(base, endpoint, q1) == RequestUrl(base, endpoint, q2)
    ensures q1 == q2
  {
    var prefix := base + endpoint + "/";
    RequestUrlShape(base, endpoint, q1);
    RequestUrlShape(base, endpoint, q2);
    if q1 != "" && q2 != "" {
      assert ("?q=" + q1)[3..] == q1;
      assert ("?q=" + q2)[3..] == q2;
    }
  }

  /**
   * What the HTTP exchange produced: any transport, status, TLS or decoding
   * failure (all caught inside `_fetch_data`), or a decoded JSON body.
   */
  datatype Transport = Failed | Delivered(body: Json)

  /** Lines 57-61: a falsy or non-object body becomes `[]`; an object yields its `results` member, `[]` when absent. */
  function ShapeResponse(data: Json): Json {
    if !Truthy(data) || !data.JObj? then JArr([]) else GetOr(data.fields, "results", JArr([]))
  }

  /** How evaluating an expression ended: with a value, or with an exception propagating out of it. */
  datatype Call = Returns(value: Json) | Propagates

  /**
   * The `try` body of `_fetch_data` (lines 44-61): a failed request, a TLS or
   * HTTP error or an undecodable body raises; a delivered body is shaped.
   */
  function FetchTry(t: Transport): Call {
    match t
    case Failed => Propagates
    case Delivered(body) => Returns(ShapeResponse(body))
  }

  /** The two handlers of lines 62-67: any exception from the `try` body becomes the return value `[]`. */
  function Handled(c: Call): Call {
    match c
    case Returns(_) => c
    case Propagates => Returns(JArr([]))
  }

  /** `await self._fetch_data(endpoint, query)` at a call site: the `try` body under its handlers. */
  function FetchCall(t: Transport): Call {
    Handled(FetchTry(t))
  }

  /** What `_fetch_data` returns. */
  function FetchData(t: Transport): Json {
    FetchCall(t).value
  }

  /** `search(endpoint, query)` returns what `_fetch_data` returns. */
  function Search(t: Transport): Json {
    FetchData(t)
  }

  /**
   * The lookup returns something other than `[]` only when the server sent an
   * object with a `results` member, and then returns that member verbatim.
   */
  lemma FetchDataResults(t: Transport)
    ensures FetchData(t) != JArr([]) ==>
              t.Delivered? && t.body.JObj? && "results" in Keys(t.body.fields)
    ensures t.Delivered? && t.body.JObj? && "results" in Keys(t.body.fields) ==>
              Get(t.body.fields, "results").Some? && FetchData(t) == Get(t.body.fields, "results").value
  {
    if t.Delivered? && t.body.JObj? {
      GetSpec(t.body.fields, "results");
    }
  }

  /** A failed request cannot be told apart from an empty result list or an empty body. */
  lemma FailureLooksEmpty()
    ensures FetchData(Failed) == FetchData(Delivered(JObj([("results", JArr([]))])))
    ensures FetchData(Failed) == FetchData(Delivered(JObj([])))
    ensures FetchData(Failed) == FetchData(Delivered(JArr([JObj([("results", JArr([JStr("x")]))])])))
  {
  }

  /** The two outcomes of `start_bot` (app/bot.py:117-128). */
  datatype Startup = Polling | NotStarted

  /** `start_bot`: polling begins only when the connectivity check succeeds. */
  function StartBot(connected: bool): Startup {
    if connected then Polling else NotStarted
  }

  /** `check_connection`'s `try`/`except` around a call that ends as `c`: True when it returns, False when it raises. */
  function CheckConnectionOf(c: Call): bool {
    c.Returns?
  }

  /**
   * `check_connection` as written: the handlers inside `_fetch_data` catch
   * every exception, so the call never raises and the check holds whatever
   * the transport did.
   */
  function CheckConnectionAsWritten(t: Transport): (ok: bool)
    ensures ok
  {
    CheckConnectionOf(FetchCall(t))
  }

  /** As written, an unreachable server still lets the bot start polling. */
  lemma UnreachableServerStillStarts()
    ensures StartBot(CheckConnectionAsWritten(Failed)) == Polling
  {
  }

  /**
   * The connectivity check as its `except` branch intends: the status
   * request's exception reaches the check instead of being turned into `[]`,
   * so the check fails exactly when the request failed.
   */
  function CheckConnection(t: Transport): (ok: bool)
    ensures ok <==> t.Delivered?
  {
    CheckConnectionOf(FetchTry(t))
  }

  /** The written and the intended check disagree exactly on the requests that failed. */
  lemma CheckConnectionDiscrepancy(t: Transport)
    ensures CheckConnectionAsWritten(t) == CheckConnection(t) <==> t.Delivered?
  {
  }

  /** With the intended check, the bot polls exactly when the status request went through. */
  lemma StartRequiresReachableServer(t: Transport)
    ensures StartBot(CheckConnection(t)) == Polling <==> t.Delivered?
  {
  }
}
