/**
 * The message handlers of app/bot.py: the welcome reply, the universal search
 * handler `handle_search_command` and the fallback for everything else, plus
 * the routing that picks one of them. A handler's effect is an `Answer`: the
 * replies it sends, in order, and the search request it issues, if any. The
 * NetBox exchange for that request is the `Transport` parameter.
 */
module Bot {
  import opened Json
  import opened PyStrings
  import opened Markdown
  import opened NetBoxClient
  import opened DeviceFormat
  import opened Commands

  /** How Telegram is asked to render a reply: as plain text, or with `parse_mode="Markdown"`. */
  datatype ParseMode = PlainText | MarkdownText

  datatype Reply = Reply(text: string, mode: ParseMode)

  /** The search a handler issues: `netbox_client.search(endpoint, query)`. */
  datatype Request = Request(endpoint: string, query: string)

  /** What a handler does with one message: the replies it sends, and the search it issues. */
  datatype Answer = Answer(replies: seq<Reply>, request: Option<Request>)

  function Plain(text: string): Reply {
    Reply(text, PlainText)
  }

  const UnknownCommandText: string := "Неизвестная команда. Вот список доступных команд:"
  const ApiErrorText: string := "Ошибка при получении данных от NetBox API."
  const NothingFoundText: string := "Ничего не найдено."

  function PromptText(description: string): string {
    "Пожалуйста, укажите запрос для поиска " + description + "."
  }

  function HeaderText(description: string): string {
    "Найденные " + description + ":\n\n"
  }

  function FailureText(description: string): string {
    "Произошла ошибка при поиске " + description + "."
  }

  const WelcomeText: string :=
    "Привет! Я бот для поиска информации в NetBox.\n" +
    "Используй команды:\n" +
    "/search_racks <запрос> - поиск стоек\n" +
    "/search_devices <запрос> - поиск устройств\n" +
    "/search_connections <запрос> - поиск соединений\n" +
    "/search_wireless <запрос> - поиск беспроводных устройств\n" +
    "/search_ipam <запрос> - поиск IP-адресов\n" +
    "/search_vpn <запрос> - поиск VPN\n" +
    "/search_virtualization <запрос> - поиск виртуальных машин\n" +
    "/search_communication_channels <запрос> - поиск каналов связи\n" +
    "/search_power_supply <запрос> - поиск источников питания"

  /** The unknown-command reply followed by the help listing, with no search. */
  function UnknownAnswer(table: seq<Command>): Answer {
    Answer([Plain(UnknownCommandText), Plain(HelpText(table))], None)
  }

  /** Lines 73 and 79: the text before the first space, and the text after it (empty when there is no space). */
  function ParseCommand(text: string): (string, string) {
    var (head, tail) := SplitOnce(text, ' ');
    (head, if tail.Some? then tail.value else "")
  }

  /** The command is the part before the first space; the query is everything after it, verbatim. */
  lemma ParseCommandSplit(text: string)
    ensures var (command, query) := ParseCommand(text);
            ' ' !in command &&
            (text == command <==> ' ' !in text) &&
            (' ' in text ==> text == command + " " + query)
  {
  }

  /** `for result in results`: what a `for` loop walks for each kind of decoded value. */
  function Iterate(results: Json): Outcome<seq<Json>> {
    match results
    case JArr(items) => Ok(items)
    case JObj(fields) => Ok(seq(|fields|, i requires 0 <= i < |fields| => JStr(fields[i].0)))
    case JStr(s) => Ok(seq(|s|, i requires 0 <= i < |s| => JStr([s[i]])))
    case _ => Raised(TypeError)
  }

  /** Lists, dicts and strings can be walked, with one item per element, key or character; other values raise TypeError. */
  lemma IterateSpec(results: Json)
    ensures Iterate(results).Ok? <==> results.JArr? || results.JObj? || results.JStr?
    ensures results.JArr? ==> Iterate(results) == Ok(results.items)
    ensures results.JObj? ==> |Iterate(results).value| == |results.fields| &&
                              forall i :: 0 <= i < |results.fields| ==> Iterate(results).value[i] == JStr(results.fields[i].0)
    ensures results.JStr? ==> |Iterate(results).value| == |results.s| &&
                              forall i :: 0 <= i < |results.s| ==> Iterate(results).value[i] == JStr([results.s[i]])
  {
  }

  /** Lines 99-100: the name line and the description line of one non-device record. */
  function SummaryBlock(result: Json): Outcome<string> {
    if !result.JObj? then Raised(AttributeError)
    else
      var name :- EscapeValue(GetOr(result.fields, "name", NA));
      var description :- EscapeValue(GetOr(result.fields, "description", NA));
      Ok("🔹 *" + name + "*\n" + "  - *Описание*: " + description + "\n\n")
  }

  /** Lines 96-100: the text one record adds to the response. */
  function RecordBlock(endpoint: string, result: Json): Outcome<string> {
    if endpoint == "devices" then
      var details :- DeviceDetails(result);
      Ok(details + "\n\n")
    else
      SummaryBlock(result)
  }

  /** Each record's block, in order. */
  function RecordBlocks(endpoint: string, results: seq<Json>): seq<Outcome<string>>
  {
    seq(|results|, k requires 0 <= k < |results| => RecordBlock(endpoint, results[k]))
  }

  /** The pieces joined in order; the first piece that raised ends the walk with its error. */
  function Concatenate(pieces: seq<Outcome<string>>): Outcome<string> {
    if |pieces| == 0 then Ok("")
    else
      var n := |pieces| - 1;
      var front :- Concatenate(pieces[..n]);
      var last :- pieces[n];
      Ok(front + last)
  }

  /** The response body: the records' blocks, in order, up to the first record that raises. */
  function Blocks(endpoint: string, results: seq<Json>): Outcome<string> {
    Concatenate(RecordBlocks(endpoint, results))
  }

  /** Lines 89-104 and 105-107: the one reply sent for a search that returned `results`. */
  function ResultsReply(description: string, endpoint: string, results: Json): Reply {
    if results.JNull? then Plain(ApiErrorText)
    else if !Truthy(results) then Reply(NothingFoundText, MarkdownText)
    else
      var body := (var items :- Iterate(results); Blocks(endpoint, items));
      if body.Ok? then Reply(HeaderText(description) + body.value, MarkdownText)
      else Plain(FailureText(description))
  }

  /** `handle_search_command` (lines 69-107) for the message text `text`. */
  function HandleSearch(table: seq<Command>, text: string, t: Transport): Answer {
    var (command, query) := ParseCommand(text);
    match Lookup(table, command)
    case None => UnknownAnswer(table)
    case Some(description) =>
      if query == "" then Answer([Plain(PromptText(description))], None)
      else
        var endpoint := Endpoint(command);
        Answer([ResultsReply(description, endpoint, Search(t))], Some(Request(endpoint, query)))
  }

  /** The three handlers, in the order the dispatcher tries them. */
  datatype Handler = WelcomeHandler | SearchHandler | UnknownHandler

  /** The characters `str.split()` treats as whitespace. */
  predicate IsSpace(c: char) {
    || c == ' ' || ('\t' <= c <= '\r') || ('\U{1C}' <= c <= '\U{1F}')
    || c == '\U{85}' || c == '\U{A0}' || c == '\U{1680}' || ('\U{2000}' <= c <= '\U{200A}')
    || c == '\U{2028}' || c == '\U{2029}' || c == '\U{202F}' || c == '\U{205F}' || c == '\U{3000}'
  }

  function DropSpaces(s: string): string {
    if |s| > 0 && IsSpace(s[0]) then DropSpaces(s[1..]) else s
  }

  function Word(s: string): string {
    if |s| == 0 || IsSpace(s[0]) then "" else [s[0]] + Word(s[1..])
  }

  /** `text.split()[0]`: the first whitespace-separated word, empty when there is none. */
  function FirstWord(s: string): string {
    Word(DropSpaces(s))
  }

  /** A word is a prefix of the text it was read from, and ends at whitespace or at the end. */
  lemma {:induction false} WordPrefix(s: string)
    ensures |Word(s)| <= |s| && s[..|Word(s)|] == Word(s)
    ensures |Word(s)| < |s| ==> IsSpace(s[|Word(s)|])
  {
    if |s| > 0 && !IsSpace(s[0]) {
      WordPrefix(s[1..]);
    }
  }

  /** Line 49, the `Command("start")` filter: the message's first word is `/start`. */
  predicate IsStartCommand(text: string) {
    FirstWord(text) == "/start"
  }

  /** Lines 49, 68 and 109: the first handler whose filter accepts the message text (absent for non-text messages). */
  function Route(text: Option<string>): Handler {
    if text.Some? && IsStartCommand(text.value) then WelcomeHandler
    else if text.Some? && StartsWith(text.value, SearchPrefix) then SearchHandler
    else UnknownHandler
  }

  /** The answer of the handler the message is routed to. */
  function HandleMessage(table: seq<Command>, text: Option<string>, t: Transport): Answer {
    match Route(text)
    case WelcomeHandler => Answer([Plain(WelcomeText)], None)
    case SearchHandler => HandleSearch(table, text.value, t)
    case UnknownHandler => UnknownAnswer(table)
  }

  // ---------------------------------------------------------------------------
  // The handler as the source writes it
  // ---------------------------------------------------------------------------

  /** Lines 96-100 for one record, calling the device formatter for the `devices` endpoint. */
  method FormatRecord(endpoint: string, result: Json) returns (r: Outcome<string>)
    ensures r == RecordBlock(endpoint, result)
  {
    if endpoint == "devices" {
      var details :- FormatDeviceDetails(result);
      return Ok(details + "\n\n");
    }
    if !result.JObj? {
      return Raised(AttributeError);
    }
    var name :- EscapeValue(GetOr(result.fields, "name", NA));
    var text := "🔹 *" + name + "*\n";
    var description :- EscapeValue(GetOr(result.fields, "description", NA));
    text := text + "  - *Описание*: " + description + "\n\n";
    return Ok(text);
  }

  /** Lines 94-100: the header followed by each record's block, ending at the first record that raises. */
  method BuildResponse(description: string, endpoint: string, results: seq<Json>) returns (r: Outcome<string>)
    ensures Blocks(endpoint, results).Raised? ==> r == Raised(Blocks(endpoint, results).error)
    ensures Blocks(endpoint, results).Ok? ==> r == Ok(HeaderText(description) + Blocks(endpoint, results).value)
  {
    var response := HeaderText(description);
    ghost var header := response;
    ghost var body := "";
    ghost var pieces := RecordBlocks(endpoint, results);
    var i := 0;
    while i < |results|
      invariant 0 <= i <= |results|
      invariant Concatenate(pieces[..i]) == Ok(body)
      invariant response == header + body
    {
      var block := FormatRecord(endpoint, results[i]);
      ConcatenateStep(pieces, i);
      if block.Raised? {
        ConcatenateRaisedAt(pieces, i);
        return Raised(block.error);
      }
      AppendAssociative(header, body, block.value);
      response := response + block.value;
      body := body + block.value;
      i := i + 1;
    }
    assert pieces[..i] == pieces;
    r := Ok(response);
  }

  /** Lines 73-107: parse, look the command up, prompt, or search and reply. */
  method HandleSearchCommand(table: seq<Command>, text: string, t: Transport) returns (a: Answer)
    ensures a == HandleSearch(table, text, t)
  {
    var (command, rest) := SplitOnce(text, ' ');
    var description := Lookup(table, command);
    if description.None? {
      var helpText := SendHelpMessage(table);
      return Answer([Plain(UnknownCommandText), Plain(helpText)], None);
    }
    var query := if rest.Some? then rest.value else "";
    if query == "" {
      return Answer([Plain(PromptText(description.value))], None);
    }
    var endpoint := Endpoint(command);
    var results := Search(t);
    var reply: Reply;
    if results.JNull? {
      reply := Plain(ApiErrorText);
    } else if !Truthy(results) {
      reply := Reply(NothingFoundText, MarkdownText);
    } else {
      var items := Iterate(results);
      if items.Raised? {
        reply := Plain(FailureText(description.value));
      } else {
        var response := BuildResponse(description.value, endpoint, items.value);
        reply := if response.Ok? then Reply(response.value, MarkdownText) else Plain(FailureText(description.value));
      }
    }
    a := Answer([reply], Some(Request(endpoint, query)));
  }

  // ---------------------------------------------------------------------------
  // Properties of the record blocks
  // ---------------------------------------------------------------------------

  /** One more piece extends the text joined so far by that piece. */
  lemma ConcatenateStep(pieces: seq<Outcome<string>>, i: nat)
    requires i < |pieces|
    ensures Concatenate(pieces[..i + 1]) ==
              (var front :- Concatenate(pieces[..i]); var last :- pieces[i]; Ok(front + last))
  {
    assert pieces[..i + 1][..i] == pieces[..i];
  }

  /** When the pieces before `i` succeed and piece `i` raises, the whole join raises that error. */
  lemma {:induction false} ConcatenateRaisedAt(pieces: seq<Outcome<string>>, i: nat)
    requires i < |pieces|
    requires Concatenate(pieces[..i]).Ok? && pieces[i].Raised?
    ensures Concatenate(pieces) == Raised(pieces[i].error)
    decreases |pieces|
  {
    var n := |pieces| - 1;
    if i == n {
      assert pieces[..n] == pieces[..i];
    } else {
      assert pieces[..n][..i] == pieces[..i];
      assert pieces[..n][i] == pieces[i];
      ConcatenateRaisedAt(pieces[..n], i);
    }
  }

  /** The join succeeds exactly when every piece does. */
  lemma {:induction false} ConcatenateOk(pieces: seq<Outcome<string>>)
    ensures Concatenate(pieces).Ok? <==> forall k :: 0 <= k < |pieces| ==> pieces[k].Ok?
  {
    if |pieces| > 0 {
      var n := |pieces| - 1;
      ConcatenateOk(pieces[..n]);
      assert forall k :: 0 <= k < n ==> pieces[..n][k] == pieces[k];
    }
  }

  /** Joining two runs of pieces joins the join of the first with the join of the second. */
  lemma {:induction false} ConcatenateAppend(a: seq<Outcome<string>>, b: seq<Outcome<string>>)
    ensures Concatenate(a + b) ==
              (var x :- Concatenate(a); var y :- Concatenate(b); Ok(x + y))
    decreases |b|
  {
    if |b| == 0 {
      assert a + b == a;
      if Concatenate(a).Ok? {
        assert Concatenate(a).value + "" == Concatenate(a).value;
      }
    } else {
      var n := |b| - 1;
      assert (a + b)[..|a + b| - 1] == a + b[..n];
      assert (a + b)[|a + b| - 1] == b[n];
      ConcatenateAppend(a, b[..n]);
      var x, y := Concatenate(a), Concatenate(b[..n]);
      assert Concatenate(a + b) ==
               (var front :- Concatenate(a + b[..n]); var last :- b[n]; Ok(front + last));
      assert Concatenate(b) == (var front :- y; var last :- b[n]; Ok(front + last));
      if x.Raised? {
        assert Concatenate(a + b[..n]) == Raised(x.error);
      } else if y.Raised? {
        assert Concatenate(a + b[..n]) == Raised(y.error);
        assert Concatenate(b) == Raised(y.error);
      } else if b[n].Raised? {
        assert Concatenate(b) == Raised(b[n].error);
      } else {
        AppendAssociative(x.value, y.value, b[n].value);
        assert Concatenate(a + b[..n]) == Ok(x.value + y.value);
        assert Concatenate(b) == Ok(y.value + b[n].value);
      }
    }
  }

  /** The walk succeeds exactly when every record's block does. */
  lemma BlocksOk(endpoint: string, results: seq<Json>)
    ensures Blocks(endpoint, results).Ok? <==>
            forall k :: 0 <= k < |results| ==> RecordBlock(endpoint, results[k]).Ok?
  {
    var pieces := RecordBlocks(endpoint, results);
    ConcatenateOk(pieces);
    assert forall k :: 0 <= k < |results| ==> pieces[k] == RecordBlock(endpoint, results[k]);
  }

  /** The response body for two runs of records is the body of the first followed by that of the second. */
  lemma {:induction false} BlocksAppend(endpoint: string, a: seq<Json>, b: seq<Json>)
    ensures Blocks(endpoint, a + b) ==
              (var x :- Blocks(endpoint, a); var y :- Blocks(endpoint, b); Ok(x + y))
  {
    RecordBlocksAppend(endpoint, a, b);
    ConcatenateAppend(RecordBlocks(endpoint, a), RecordBlocks(endpoint, b));
  }

  /** The blocks of two runs of records are the first run's blocks followed by the second's. */
  lemma RecordBlocksAppend(endpoint: string, a: seq<Json>, b: seq<Json>)
    ensures RecordBlocks(endpoint, a + b) == RecordBlocks(endpoint, a) + RecordBlocks(endpoint, b)
  {
    var whole, parts := RecordBlocks(endpoint, a + b), RecordBlocks(endpoint, a) + RecordBlocks(endpoint, b);
    assert |whole| == |parts|;
    forall k | 0 <= k < |whole|
      ensures whole[k] == parts[k]
    {
      if k < |a| {
        assert (a + b)[k] == a[k];
      } else {
        assert (a + b)[k] == b[k - |a|];
      }
    }
  }

  /** A single record's part of the response is its own block. */
  lemma BlocksSingle(endpoint: string, result: Json)
    ensures Blocks(endpoint, [result]) == RecordBlock(endpoint, result)
  {
    ConcatenateSingle(RecordBlock(endpoint, result));
    assert RecordBlocks(endpoint, [result]) == [RecordBlock(endpoint, result)];
  }

  lemma ConcatenateSingle(piece: Outcome<string>)
    ensures Concatenate([piece]) == piece
  {
    assert [piece][..0] == [];
    if piece.Ok? {
      assert "" + piece.value == piece.value;
    }
  }

  /** Every record block ends with a blank line, so consecutive records stay apart. */
  lemma RecordBlockEndsBlank(endpoint: string, result: Json)
    ensures RecordBlock(endpoint, result).Ok? ==>
              var b := RecordBlock(endpoint, result).value;
              |b| >= 2 && b[|b| - 2..] == "\n\n"
  {
  }

  /**
   * A record that is not an object is reported as malformed under `devices`,
   * while any other endpoint raises AttributeError on `result.get`.
   */
  lemma NonObjectRecord(endpoint: string, result: Json)
    requires !result.JObj?
    ensures endpoint == "devices" ==> RecordBlock(endpoint, result) == Ok(Incorrect + "\n\n")
    ensures endpoint != "devices" ==> RecordBlock(endpoint, result) == Raised(AttributeError)
  {
  }

  /**
   * With string fields the non-device block shows the escaped name in bold and
   * the escaped description, and the markup around them is the only reserved
   * text: decoding each escaped part recovers the field.
   */
  lemma SummaryBlockOfStrings(fields: seq<(string, Json)>, name: string, description: string)
    requires GetOr(fields, "name", NA) == JStr(name)
    requires GetOr(fields, "description", NA) == JStr(description)
    ensures SummaryBlock(JObj(fields)) ==
              Ok("🔹 *" + Escape(name) + "*\n" + "  - *Описание*: " + Escape(description) + "\n\n")
    ensures Unescape(Escape(name)) == name && Unescape(Escape(description)) == description
  {
    UnescapeEscape(name);
    UnescapeEscape(description);
  }

  /** A name that is a number, a boolean or null makes the block raise TypeError. */
  lemma SummaryBlockNonText(fields: seq<(string, Json)>)
    requires var n := GetOr(fields, "name", NA); n.JNum? || n.JBool? || n.JNull?
    ensures SummaryBlock(JObj(fields)) == Raised(TypeError)
  {
  }

  /** With a string name, a description that is a number, a boolean or null makes the block raise TypeError. */
  lemma SummaryBlockNonTextDescription(fields: seq<(string, Json)>)
    requires GetOr(fields, "name", NA).JStr?
    requires var d := GetOr(fields, "description", NA); d.JNum? || d.JBool? || d.JNull?
    ensures SummaryBlock(JObj(fields)) == Raised(TypeError)
  {
  }

  // ---------------------------------------------------------------------------
  // Properties of the reply to a search
  // ---------------------------------------------------------------------------

  /**
   * The reply for each kind of search result: null is an API error; another
   * falsy value means nothing was found; otherwise the header and one block per
   * record, or the failure reply when the walk raises.
   */
  lemma ResultsReplyCases(description: string, endpoint: string, results: Json)
    ensures results.JNull? ==> ResultsReply(description, endpoint, results) == Plain(ApiErrorText)
    ensures !results.JNull? && !Truthy(results) ==>
              ResultsReply(description, endpoint, results) == Reply(NothingFoundText, MarkdownText)
    ensures results.JArr? && |results.items| > 0 && Blocks(endpoint, results.items).Ok? ==>
              ResultsReply(description, endpoint, results) ==
              Reply(HeaderText(description) + Blocks(endpoint, results.items).value, MarkdownText)
    ensures results.JArr? && (exists k :: 0 <= k < |results.items| && RecordBlock(endpoint, results.items[k]).Raised?) ==>
              ResultsReply(description, endpoint, results) == Plain(FailureText(description))
    ensures (results.JNum? || results.JBool?) && Truthy(results) ==>
              ResultsReply(description, endpoint, results) == Plain(FailureText(description))
  {
    if results.JArr? {
      BlocksOk(endpoint, results.items);
    }
  }

  /** A non-empty dict of results is walked by its keys, and a key has no `.get`: the search reports a failure. */
  lemma ObjectResultsFail(description: string, endpoint: string, fields: seq<(string, Json)>)
    requires |fields| > 0 && endpoint != "devices"
    ensures ResultsReply(description, endpoint, JObj(fields)) == Plain(FailureText(description))
  {
    var items := Iterate(JObj(fields)).value;
    assert !items[0].JObj?;
    BlocksOk(endpoint, items);
  }

  /** Every reply to a search is one of the four shapes the handler writes. */
  lemma ResultsReplyShapes(description: string, endpoint: string, results: Json)
    ensures var r := ResultsReply(description, endpoint, results);
            || r == Plain(ApiErrorText)
            || r == Reply(NothingFoundText, MarkdownText)
            || r == Plain(FailureText(description))
            || (r.mode == MarkdownText && StartsWith(r.text, HeaderText(description)))
  {
    var r := ResultsReply(description, endpoint, results);
    if r.mode == MarkdownText && r != Reply(NothingFoundText, MarkdownText) {
      assert r.text[..|HeaderText(description)|] == HeaderText(description);
    }
  }

  // ---------------------------------------------------------------------------
  // Properties of the search handler
  // ---------------------------------------------------------------------------

  /** A command missing from the table gets the unknown-command reply and the help listing, and nothing is searched; a known one never does. */
  lemma UnknownCommandHelp(table: seq<Command>, text: string, t: Transport)
    ensures Lookup(table, ParseCommand(text).0).None? <==> HandleSearch(table, text, t) == UnknownAnswer(table)
    ensures Lookup(table, ParseCommand(text).0).None? ==> HandleSearch(table, text, t).request.None?
  {
  }

  /** A search is issued exactly for a known command with a non-empty query, for the derived endpoint and the query verbatim. */
  lemma RequestIff(table: seq<Command>, text: string, t: Transport)
    ensures var (command, query) := ParseCommand(text);
            var a := HandleSearch(table, text, t);
            (a.request.Some? <==> Lookup(table, command).Some? && query != "") &&
            (a.request.Some? ==> a.request.value == Request(Endpoint(command), query) && |a.replies| == 1)
  {
  }

  /** A known trigger with nothing after it, or only a trailing space, is answered with the prompt for that entry, and nothing is searched. */
  lemma EmptyQueryPrompt(table: seq<Command>, k: nat, t: Transport)
    requires WellFormedTable(table) && k < |table|
    ensures HandleSearch(table, table[k].trigger, t) == Answer([Plain(PromptText(table[k].description))], None)
    ensures HandleSearch(table, table[k].trigger + " ", t) == Answer([Plain(PromptText(table[k].description))], None)
  {
    var trigger := table[k].trigger;
    assert WellFormedTrigger(trigger);
    LookupEntry(table, k);
    SplitOnceOfJoin(trigger, ' ', "");
    assert trigger + " " == trigger + [' '] + "";
  }

  /** `trigger query` searches the entry's endpoint for the query exactly as typed, spaces and all. */
  lemma QueryVerbatim(table: seq<Command>, k: nat, query: string, t: Transport)
    requires WellFormedTable(table) && k < |table| && query != ""
    ensures var a := HandleSearch(table, table[k].trigger + " " + query, t);
            a.request == Some(Request(Endpoint(table[k].trigger), query)) &&
            a.replies == [ResultsReply(table[k].description, Endpoint(table[k].trigger), Search(t))]
  {
    var trigger := table[k].trigger;
    assert WellFormedTrigger(trigger);
    LookupEntry(table, k);
    SplitOnceOfJoin(trigger, ' ', query);
    assert trigger + " " + query == trigger + [' '] + query;
  }

  /**
   * `null` results are the only way to the API-error reply; a failed request
   * instead reads as an empty result list and is answered "nothing found".
   */
  lemma ApiErrorIff(description: string, endpoint: string, t: Transport)
    ensures ResultsReply(description, endpoint, Search(t)) == Plain(ApiErrorText) <==>
            t.Delivered? && NonEmptyObject(t.body) && Get(t.body.fields, "results") == Some(JNull)
    ensures t.Failed? ==> ResultsReply(description, endpoint, Search(t)) == Reply(NothingFoundText, MarkdownText)
  {
    assert ApiErrorText[0] != FailureText(description)[0];
  }

  /** The search handler cannot tell a failed request from an empty body. */
  lemma FailureIndistinguishable(table: seq<Command>, text: string)
    ensures HandleSearch(table, text, Failed) == HandleSearch(table, text, Delivered(JObj([])))
    ensures HandleSearch(table, text, Failed) == HandleSearch(table, text, Delivered(JObj([("results", JArr([]))])))
  {
  }

  // ---------------------------------------------------------------------------
  // Properties of the routing
  // ---------------------------------------------------------------------------

  /** `/start`, alone or followed by whitespace and anything else, goes to the welcome handler. */
  lemma StartRoutesToWelcome(rest: string)
    requires |rest| == 0 || IsSpace(rest[0])
    ensures Route(Some("/start" + rest)) == WelcomeHandler
    ensures forall table, t :: HandleMessage(table, Some("/start" + rest), t) == Answer([Plain(WelcomeText)], None)
  {
    var s := "/start" + rest;
    assert forall i :: 0 <= i < |"/start"| ==> !IsSpace("/start"[i]);
    WordOfPrefix("/start", rest);
    assert DropSpaces(s) == s;
  }

  /** A word followed by whitespace or by nothing is read back whole. */
  lemma {:induction false} WordOfPrefix(w: string, rest: string)
    requires forall i :: 0 <= i < |w| ==> !IsSpace(w[i])
    requires |rest| == 0 || IsSpace(rest[0])
    ensures Word(w + rest) == w
  {
    if |w| == 0 {
      assert w + rest == rest;
    } else {
      assert (w + rest)[1..] == w[1..] + rest;
      WordOfPrefix(w[1..], rest);
      assert [w[0]] + w[1..] == w;
    }
  }

  /** Every text beginning with `/search_` goes to the search handler. */
  lemma SearchTextRoutesToSearch(text: string)
    requires StartsWith(text, SearchPrefix)
    ensures Route(Some(text)) == SearchHandler
  {
    assert text[0] == '/';
    assert DropSpaces(text) == text;
    WordPrefix(text);
  }

  /** No text at all, and text neither starting with `/search_` nor a `/start` command, goes to the fallback. */
  lemma OtherRoutesToUnknown(text: Option<string>)
    requires text.None? || (!IsStartCommand(text.value) && !StartsWith(text.value, SearchPrefix))
    ensures Route(text) == UnknownHandler
    ensures forall table, t :: HandleMessage(table, text, t) == UnknownAnswer(table)
  {
  }

  /**
   * Outside the welcome command, a message whose command is not in the table
   * gets the same answer whichever handler takes it: the unknown-command reply
   * and the help listing.
   */
  lemma UnknownCommandAnyRoute(table: seq<Command>, text: string, t: Transport)
    requires !IsStartCommand(text) && Lookup(table, ParseCommand(text).0).None?
    ensures HandleMessage(table, Some(text), t) == UnknownAnswer(table)
  {
  }

  /** Over a well-formed table, a message leads to a search exactly when it is a table trigger, a space and a non-empty query. */
  lemma MessageRequestIff(table: seq<Command>, text: string, t: Transport)
    requires WellFormedTable(table)
    ensures var (command, query) := ParseCommand(text);
            HandleMessage(table, Some(text), t).request.Some? <==> Lookup(table, command).Some? && query != ""
  {
    var (command, query) := ParseCommand(text);
    if Lookup(table, command).Some? {
      LookupSpec(table, command);
      var k :| 0 <= k < |table| && table[k].trigger == command;
      assert WellFormedTrigger(table[k].trigger);
      var (head, tail) := SplitOnce(text, ' ');
      assert text[..|SearchPrefix|] == command[..|SearchPrefix|];
      SearchTextRoutesToSearch(text);
    } else if !IsStartCommand(text) {
      UnknownCommandAnyRoute(table, text, t);
    }
  }
}
