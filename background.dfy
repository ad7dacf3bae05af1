/**
 * The extension's background script (final11/project/extension/background.js):
 * the per-tab table of analysis results, the message handler that starts an
 * analysis or reports a tab's result, and the cleanup when a tab closes. The
 * outcome of the backend request is a parameter.
 */
module Background {
  import opened Wrappers

  // Decimal rendering of an HTTP status (`${resp.status}`) ----------------------

  function DigitChar(d: nat): (c: char)
    requires d < 10
    ensures '0' <= c <= '9' && c as int - '0' as int == d
  {
    (('0' as int) + d) as char
  }

  predicate AllDigits(s: string) {
    forall i :: 0 <= i < |s| ==> '0' <= s[i] <= '9'
  }

  /** The decimal numeral of `n`, most significant digit first. */
  function DecimalString(n: nat): (s: string)
    ensures |s| >= 1 && AllDigits(s)
    ensures |s| > 1 ==> s[0] != '0'
  {
    if n < 10 then [DigitChar(n)] else DecimalString(n / 10) + [DigitChar(n % 10)]
  }

  /** The number a string of decimal digits denotes. */
  function DecimalValue(s: string): nat
    requires AllDigits(s)
  {
    if s == [] then 0 else 10 * DecimalValue(s[..|s| - 1]) + (s[|s| - 1] as int - '0' as int)
  }

  lemma {:induction false} DecimalRoundTrip(n: nat)
    ensures DecimalValue(DecimalString(n)) == n
  {
    if n >= 10 {
      DecimalRoundTrip(n / 10);
      var s := DecimalString(n);
      assert s[..|s| - 1] == DecimalString(n / 10);
    }
  }

  // Tab entries ----------------------------------------------------------------

  /** A tab's stored result: `{status: "loading"}`, `{status: "done", data}` or `{status: "error", error}`. */
  datatype Entry<D> = Loading | Done(data: D) | Error(message: string)

  /** The answer to `get_result`: the tab's entry, or `{status: "idle"}` when it has none. */
  datatype Report<D> = Idle | Current(entry: Entry<D>)

  /** The body of a response as `resp.json()` sees it. */
  datatype Body<D> = Parsed(value: D) | Unparsable(message: string)

  /** What `fetch` did: it threw (with the error's message), or a response arrived. */
  datatype FetchOutcome<D> = FetchFailed(message: string) | Responded(status: nat, body: Body<D>)

  /** `resp.ok`. */
  predicate Ok(status: nat) {
    200 <= status <= 299
  }

  /** The message of the error thrown for a non-OK status. */
  function NotOkMessage(status: nat): string {
    "Backend returned " + DecimalString(status)
  }

  /** Different statuses give different messages, so the message identifies the status. */
  lemma NotOkMessageIdentifiesStatus(a: nat, b: nat)
    requires NotOkMessage(a) == NotOkMessage(b)
    ensures a == b
  {
    var prefix := "Backend returned ";
    assert DecimalString(a) == NotOkMessage(a)[|prefix|..];
    assert DecimalString(b) == NotOkMessage(b)[|prefix|..];
    DecimalRoundTrip(a);
    DecimalRoundTrip(b);
  }

  /** The entry an analysis ends in, given what the request produced. */
  function Settle<D>(outcome: FetchOutcome<D>): (e: Entry<D>)
    ensures !e.Loading?
    ensures e.Done? <==> outcome.Responded? && Ok(outcome.status) && outcome.body.Parsed?
    ensures e.Done? ==> e.data == outcome.body.value
    ensures outcome.Responded? && !Ok(outcome.status) ==> e == Error(NotOkMessage(outcome.status))
    ensures outcome.FetchFailed? ==> e == Error(outcome.message)
    ensures outcome.Responded? && Ok(outcome.status) && outcome.body.Unparsable? ==> e == Error(outcome.body.message)
  {
    match outcome
    case FetchFailed(message) => Error(message)
    case Responded(status, body) =>
      if !Ok(status) then Error(NotOkMessage(status))
      else match body
        case Parsed(data) => Done(data)
        case Unparsable(message) => Error(message)
  }

  /** What `get_result` answers for `tabId` given the table. */
  function ReportFor<D>(table: map<int, Entry<D>>, tabId: int): (r: Report<D>)
    ensures r.Idle? <==> tabId !in table
    ensures r.Current? ==> r.entry == table[tabId]
  {
    if tabId in table then Current(table[tabId]) else Idle
  }

  /** After a tab is removed, `get_result` for it answers idle; other tabs answer as before. */
  lemma RemovedTabIsIdle<D>(table: map<int, Entry<D>>, tabId: int, other: int)
    ensures ReportFor(table - {tabId}, tabId) == Idle
    ensures other != tabId ==> ReportFor(table - {tabId}, other) == ReportFor(table, other)
  {
  }

  // The background script ------------------------------------------------------

  /** An `analysis_status` broadcast: the tab and the entry it now has. */
  datatype Broadcast<D> = Broadcast(tabId: int, entry: Entry<D>)

  /** A runtime message: `page_text`, `get_result`, or any other type. */
  datatype Message = PageText(text: string) | GetResult(tabId: int) | OtherMessage

  /** The handler's reply: `{ok: true}` for `page_text`, or a report. */
  datatype Response<D> = Accepted | Reported(report: Report<D>)

  /**
   * The background script's state: the `resultsByTab` table and, for the
   * `analysis_status` broadcasts, the log of what was sent.
   */
  class TabResults<D> {
    var resultsByTab: map<int, Entry<D>>
    var broadcasts: seq<Broadcast<D>>

    constructor ()
      ensures resultsByTab == map[] && broadcasts == []
    {
      resultsByTab := map[];
      broadcasts := [];
    }

    /**
     * `analyzeText`: the tab goes to loading, then to the entry the request's
     * outcome settles on; each step is broadcast. `outcome` is what posting
     * `text` to the backend produced.
     */
    method AnalyzeText(text: string, tabId: int, outcome: FetchOutcome<D>)
      modifies this
      ensures resultsByTab == old(resultsByTab)[tabId := Settle(outcome)]
      ensures broadcasts == old(broadcasts) + [Broadcast(tabId, Loading), Broadcast(tabId, Settle(outcome))]
    {
      resultsByTab := resultsByTab[tabId := Loading];
      broadcasts := broadcasts + [Broadcast(tabId, Loading)];
      var entry := Settle(outcome);
      resultsByTab := resultsByTab[tabId := entry];
      broadcasts := broadcasts + [Broadcast(tabId, entry)];
    }

    /** The `get_result` query: the tab's entry, or idle; it changes nothing. */
    method GetResult(tabId: int) returns (r: Report<D>)
      ensures r == ReportFor(resultsByTab, tabId)
    {
      r := if tabId in resultsByTab then Current(resultsByTab[tabId]) else Idle;
    }

    /**
     * The `onMessage` listener. `senderTab` is the sender's tab id, if any; a
     * `page_text` message starts an analysis only when it is present and
     * non-zero (`sender.tab?.id` is falsy for 0). `outcome` is what the
     * analysis's request produces, if one starts.
     */
    method OnMessage(msg: Message, senderTab: Option<int>, outcome: FetchOutcome<D>) returns (response: Option<Response<D>>)
      modifies this
      ensures msg.PageText? && senderTab.Some? && senderTab.value != 0 ==>
        && response == Some(Accepted)
        && resultsByTab == old(resultsByTab)[senderTab.value := Settle(outcome)]
        && broadcasts == old(broadcasts) + [Broadcast(senderTab.value, Loading), Broadcast(senderTab.value, Settle(outcome))]
      ensures msg.GetResult? ==> response == Some(Reported(ReportFor(old(resultsByTab), msg.tabId)))
      ensures msg.PageText? && (senderTab.None? || senderTab.value == 0) ==> response == None
      ensures msg.OtherMessage? ==> response == None
      ensures !(msg.PageText? && senderTab.Some? && senderTab.value != 0) ==>
        resultsByTab == old(resultsByTab) && broadcasts == old(broadcasts)
    {
      if msg.PageText? && senderTab.Some? && senderTab.value != 0 {
        AnalyzeText(msg.text, senderTab.value, outcome);
        return Some(Accepted);
      }
      if msg.GetResult? {
        var report := GetResult(msg.tabId);
        return Some(Reported(report));
      }
      response := None;
    }

    /** The `tabs.onRemoved` listener: the tab's entry is deleted and nothing else changes. */
    method OnRemoved(tabId: int)
      modifies this
      ensures resultsByTab == old(resultsByTab) - {tabId}
      ensures broadcasts == old(broadcasts)
    {
      resultsByTab := resultsByTab - {tabId};
    }
  }
}
