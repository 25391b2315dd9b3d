# NetBox search bot: a Dafny model

This project models the core of a Telegram bot that searches a NetBox
inventory. A user sends `/search_<category> <query>`. The bot looks the
trigger up in its `COMMANDS` table and derives a NetBox API endpoint from it
(`/search_power_supply` becomes `power-supply`). It then requests
`<base><endpoint>/?q=<query>` and replies with the found records, rendered
with Markdown escaping.

The model covers:

- the Markdown escaper `escape_markdown`;
- the device formatter `_format_device_details`;
- the URL and response shaping inside `_fetch_data`, and the connectivity check;
- the command table, the help listing, the search handler, and the routing of
  a message to the welcome, search or fallback handler.

Modules, one concept each:

- `Json`: decoded JSON values. Objects are ordered association lists, so the
  key order of `dict.items()` is observable. `Outcome` is a value or the
  Python exception it raised (`TypeError`, `AttributeError`).
- `PyStrings`: the Python string operations used. These are `split(" ", 1)`,
  `startswith`, substring `in`, `replace`, ASCII `capitalize`, `"\n".join`,
  and `str()` of a JSON value.
- `Markdown`: `escape_markdown` on strings, with its decoder. Also its
  behaviour on non-string values, which Python walks element by element.
- `NetBoxClient`: the request URL and the reduction of a response body to a
  result. The HTTP exchange is a parameter, `Transport = Failed | Delivered(body)`.
  Also the connectivity check and the start-up decision.
- `DeviceFormat`: the device formatter. Its specification is a rule table:
  - five fixed lines;
  - one line per nested rule whose path runs through non-empty dicts;
  - one line per unhandled key.

  `FormatDeviceDetails` is the source's imperative code, proved equal to it.
- `Commands`: any command table. It covers the lookup, the endpoint
  derivation, and the help listing with its loop (`SendHelpMessage`).
- `CommandList`: the bot's own nine-entry table and its well-formedness.
- `Bot`: the search handler as a function `HandleSearch` of the message text
  and the transport outcome. Also `HandleSearchCommand` and `BuildResponse`,
  the imperative code proved equal to it, and the message routing
  (`Route`, `HandleMessage`).
- `BotCommands`: the handler's facts instantiated on the bot's own table.

A handler's effect is an `Answer`, made of two parts:

- the replies it sends, in order, each with its parse mode;
- the search it issues, if any.

"No search happens" is therefore a statement about `Answer.request`.

The model follows the code in these points:

- The query is split off at the first space character `" "` only; a tab or
  newline does not separate it (app/bot.py:73, 79).
- `search` never raises. `_fetch_data` catches `Exception` and turns every
  transport, HTTP and decoding failure into `[]` (app/netbox_client.py:62-67).
  A failed request is therefore answered "Ничего не найдено." (see `ApiErrorIff`
  and `FailureIndistinguishable`). In the model, the failure reply
  "Произошла ошибка при поиске …" comes only from exceptions raised while the
  response is built (app/bot.py:94-100, 105-107).
- The search result `null`, which gives the API-error reply, arises only from
  a body `{"results": null, ...}` (app/netbox_client.py:57-61, app/bot.py:89-91).

## Model

| member | source | states |
|---|---|---|
| Json.GetSpec | app/netbox_client.py:96-100 | `dict.get` finds a value exactly for the keys present, and the value found is stored under that key |
| Json.GetDistinct | app/netbox_client.py:96-100 | over an object with distinct keys, as `json.loads` builds, `get` of any entry's key returns that entry's value |
| PyStrings.SingleCharSubstring | app/netbox_client.py:24 | for a one-character string, `x in s` holds iff that character occurs in `s` |
| PyStrings.SplitOnce | app/bot.py:73 | `split(" ", 1)`: with no separator the head is the whole text; otherwise the text is head + separator + tail and the head holds no separator |
| PyStrings.SplitOnceOfJoin | app/bot.py:73-79 | splitting `head + sep + tail`, where `head` holds no `sep`, gives back exactly `head` and `tail` |
| PyStrings.MapChar | app/bot.py:85 | definition: the character map that replaces every occurrence of one character; `ReplaceSingleChar` and `EndpointOfSearch` connect `replace` to it |
| PyStrings.ReplaceAbsent | app/bot.py:85 | `replace` of a pattern whose first character is absent changes nothing |
| PyStrings.ReplaceSingleChar | app/bot.py:85 | `replace("_", "-")` is the character map from `_` to `-` |
| PyStrings.Capitalize | app/netbox_client.py:129 | definition: `capitalize` on ASCII letters, first character upper-cased and the rest lower-cased; `CapitalizeIdempotent` is its property |
| PyStrings.CapitalizeIdempotent | app/netbox_client.py:129 | capitalising twice is capitalising once |
| PyStrings.PyStr | app/netbox_client.py:97 | definition: `str(v)`, the string itself for a string and its repr otherwise |
| Markdown.Escape | app/netbox_client.py:19-24 | definition: `escape_markdown` of a string, a backslash before every character of the reserved set; its properties are the Markdown lemmas below |
| Markdown.EscapeValue | app/netbox_client.py:19-24 | definition: `escape_markdown` of any JSON value, walked element by element; characterized by `EscapeValueOk` and `EscapeCharList` |
| Markdown.EscapeLength | app/netbox_client.py:23-24 | the escaped text is longer by exactly the number of reserved characters |
| Markdown.EscapeAppend | app/netbox_client.py:24 | escaping works character by character: it distributes over concatenation |
| Markdown.EscapeIdentityIff | app/netbox_client.py:23-24 | escaping leaves a string unchanged iff it holds no reserved character |
| Markdown.NoReservedCount | app/netbox_client.py:23-24 | no reserved character iff the count is zero, and then the escape is the identity |
| Markdown.EscapeHead | app/netbox_client.py:24 | an escaped text never starts with a reserved character |
| Markdown.UnescapeEscape | app/netbox_client.py:24 | the left-to-right decoder recovers the original string |
| Markdown.EscapeInjective | app/netbox_client.py:24 | distinct strings have distinct escapes |
| Markdown.EscapeIsSafe | app/netbox_client.py:24 | in every escaped text, every reserved character is preceded by its backslash |
| Markdown.SafeIsEscaped | app/netbox_client.py:24 | every such safe text is the escape of its decoding: safe texts are exactly the escaper's range |
| Markdown.EscapeNotIdempotent | app/netbox_client.py:24 | `"."` escapes to `"\."` and then to `"\\\."`, so escaping is not idempotent |
| Markdown.EscapeElementsOk | app/netbox_client.py:24 | walking a list succeeds iff every element is a string |
| Markdown.EscapeValueOk | app/netbox_client.py:24 | `escape_markdown(v)` raises exactly for None, booleans, numbers and lists holding a non-string; on a string it is the string escape |
| Markdown.EscapeCharList | app/netbox_client.py:24 | walking a list of one-character strings escapes like walking the string itself |
| NetBoxClient.RequestUrl | app/netbox_client.py:45 | definition: the URL expression; characterized by `RequestUrlShape` and `RequestUrlInjective` |
| NetBoxClient.ShapeResponse | app/netbox_client.py:57-61 | definition: a falsy or non-dict body gives `[]`, a dict its `results` member or `[]` |
| NetBoxClient.FetchTry | app/netbox_client.py:44-61 | definition: the `try` body of `_fetch_data`, which raises for a failed request |
| NetBoxClient.Handled | app/netbox_client.py:62-67 | definition: the two handlers, which turn any exception into the return value `[]` |
| NetBoxClient.FetchData | app/netbox_client.py:43-67 | definition: the value `_fetch_data` returns; characterized by `FetchDataResults` and `FailureLooksEmpty` |
| NetBoxClient.RequestUrlShape | app/netbox_client.py:45 | the URL is `base + endpoint + "/"`, followed by `"?q=" + query` verbatim exactly when the query is non-empty |
| NetBoxClient.RequestUrlInjective | app/netbox_client.py:45 | different queries to one endpoint give different URLs |
| NetBoxClient.FetchDataResults | app/netbox_client.py:57-61 | the result differs from `[]` only for a dict body with a `results` key, and then it is that value verbatim |
| NetBoxClient.FailureLooksEmpty | app/netbox_client.py:57-67 | a failed request gives the same result as an empty `results` list, an empty dict body or a list body |
| NetBoxClient.StartBot | app/bot.py:117-126 | definition: `start_bot` polls when the check succeeds and does not start otherwise |
| NetBoxClient.CheckConnectionOf | app/netbox_client.py:79-84 | definition: the `try`/`except` of `check_connection`, True when the awaited call returns and False when it raises |
| NetBoxClient.CheckConnectionAsWritten | app/netbox_client.py:75-84 | as written, the check returns True for every transport outcome, because the handlers inside `_fetch_data` leave no exception for its `except` |
| NetBoxClient.UnreachableServerStillStarts | app/netbox_client.py:79-81 | as written, the bot starts polling although the server is unreachable |
| NetBoxClient.CheckConnection | app/netbox_client.py:79-84 | the intended check, on the request without the swallowing handlers, succeeds iff the status request went through |
| NetBoxClient.CheckConnectionDiscrepancy | app/netbox_client.py:62-84 | the written and the intended check agree exactly on the requests that went through |
| NetBoxClient.StartRequiresReachableServer | app/bot.py:121-126 | with the intended check, the bot polls iff the status request went through |
| DeviceFormat.DeviceDetails | app/netbox_client.py:86-131 | definition: `_format_device_details` as a specification (fixed lines, rule lines, extra lines, joined by newlines); its layout is `DeviceLayout` and its imperative twin `FormatDeviceDetails` |
| DeviceFormat.ResolveOne | app/netbox_client.py:110-111 | a one-key path resolves iff its value is a non-empty dict, and then to that dict |
| DeviceFormat.ResolveTwo | app/netbox_client.py:103-108 | the manufacturer path resolves iff a non-empty device type holds a non-empty manufacturer |
| DeviceFormat.ApplicableSpec | app/netbox_client.py:102-124 | the shown rules are exactly the table's rules whose path resolves |
| DeviceFormat.RuleLinesShape | app/netbox_client.py:102-124 | one conditional line per applicable rule, in table order, each the rule's caption with the escaped field of the resolved dict |
| DeviceFormat.LeftoverIndices | app/netbox_client.py:127-128 | the extra entries are exactly the unhandled keys' positions, increasing |
| DeviceFormat.ExtraLinesIndexed | app/netbox_client.py:127-129 | extra line k renders the k-th unhandled entry, so there is one extra line per unhandled key, in key order |
| DeviceFormat.ExtraLinesSnoc | app/netbox_client.py:127-129 | a further entry adds its line iff its key is unhandled |
| DeviceFormat.NoExtraLinesIff | app/netbox_client.py:127-129 | no extra line iff every key is one of the ten handled keys |
| DeviceFormat.RuleLinesStep | app/netbox_client.py:102-124 | a rule whose path does not resolve adds nothing; one that resolves adds its line or raises its escape error |
| DeviceFormat.SingleKeyStep | app/netbox_client.py:110-124 | a single-key rule adds its line iff the value is a non-empty dict |
| DeviceFormat.DeviceTypeStep | app/netbox_client.py:103-105 | without a non-empty device type, both the model and the manufacturer lines are skipped |
| DeviceFormat.ManufacturerStep | app/netbox_client.py:106-108 | inside a device type, the manufacturer line appears iff the manufacturer is a non-empty dict |
| DeviceFormat.NestedRulesTail | app/netbox_client.py:110-124 | site, rack, location and primary IP follow the device type rules, in that order |
| DeviceFormat.AppendFixedLines | app/netbox_client.py:93-100 | the appended fixed lines equal the fixed-line specification, errors included |
| DeviceFormat.AppendDeviceTypeLines | app/netbox_client.py:103-108 | the nested `if`s produce the first two rules' lines, or the error they raise |
| DeviceFormat.AppendKeyLine | app/netbox_client.py:110-124 | one `get`-and-test step produces that rule's line, or nothing, or its error |
| DeviceFormat.AppendPlacementLines | app/netbox_client.py:110-124 | the four placement `if`s produce the remaining rules' lines |
| DeviceFormat.AppendExtraLine | app/netbox_client.py:127-129 | one loop step appends the entry's line iff its key is unhandled |
| DeviceFormat.ExtraLinesPrefixStep | app/netbox_client.py:126-129 | extending the walked prefix of `device.items()` by one entry appends that entry's line, if any, after the lines so far |
| DeviceFormat.AppendExtraLines | app/netbox_client.py:126-129 | the loop over `device.items()` appends exactly the extra lines |
| DeviceFormat.FormatDeviceDetails | app/netbox_client.py:86-131 | the imperative formatter returns exactly the specified text, or raises exactly when the specification does |
| DeviceFormat.DeviceLinesParts | app/netbox_client.py:93-131 | a record's lines are its fixed, then its conditional, then its extra lines; the record fails iff a fixed or a conditional line fails |
| DeviceFormat.FixedLinesShape | app/netbox_client.py:96-100 | there are five fixed lines, the second showing `str(id)` escaped |
| DeviceFormat.DeviceLayout | app/netbox_client.py:93-131 | five fixed lines, then one line per applicable rule in order, then one per unhandled key in order; the count is 5 + conditional + extra |
| DeviceFormat.LayoutAfterFixed | app/netbox_client.py:102-129 | after the five fixed lines come the conditional lines, then the extra lines |
| DeviceFormat.NestedLayout | app/netbox_client.py:102-124 | line 5 + k is the k-th applicable rule's line |
| DeviceFormat.ExtraLayout | app/netbox_client.py:126-131 | the extra lines are the last ones, after the fixed and the conditional lines |
| DeviceFormat.DeviceDetailsNonObject | app/netbox_client.py:90-91 | a non-dict record gives exactly "Некорректные данные об устройстве."; only a dict record can raise |
| Commands.Lookup | app/bot.py:74-77 | definition: `COMMANDS.get(command)`; characterized by `LookupSpec` and `LookupEntry` |
| Commands.Endpoint | app/bot.py:85 | definition: the two `replace` calls that derive the endpoint; characterized by `EndpointOfSearch` and `EndpointInjective` |
| Commands.HelpText | app/bot.py:40-47 | definition: the help listing, header then one line per entry; `SendHelpMessage` is its loop |
| Commands.LookupSpec | app/bot.py:74 | `trigger in COMMANDS` holds exactly for the table's triggers, and the description found belongs to that trigger |
| Commands.LookupEntry | app/bot.py:74-81 | with distinct triggers, every entry is found under its own trigger |
| Commands.TriggerOfWord | app/bot.py:28-38 | `/search_` plus a lower-case word is a well-formed trigger |
| Commands.EndpointOfSearch | app/bot.py:85 | the endpoint of `/search_` + word is the word with every `_` mapped to `-` |
| Commands.EndpointOfWord | app/bot.py:85 | the endpoint of `/search_` + word is the word's character map |
| Commands.EndpointInjective | app/bot.py:85 | among words without `/` or `-`, distinct triggers give distinct endpoints |
| Commands.TableEndpointsInjective | app/bot.py:85 | over a well-formed table, the endpoint determines the entry |
| Commands.HelpLinesSnoc | app/bot.py:45-46 | one more entry appends its line to the listing |
| Commands.SendHelpMessage | app/bot.py:40-47 | the loop builds exactly the header followed by one line per entry |
| Commands.HelpLinesSplit | app/bot.py:44-46 | split at newlines, the listing has one line per entry, in table order, then the empty rest |
| Commands.EntryTrigger | app/bot.py:46 | the text before the first space of an entry's line is its trigger |
| Commands.HelpListingLines | app/bot.py:44-47 | a well-formed table lists one line per entry in order, each starting with its own trigger, every trigger exactly once |
| CommandList.CommandTableDistinct | app/bot.py:28-38 | the nine triggers are pairwise distinct |
| CommandList.TableWords | app/bot.py:28-38 | every category word is lower-case letters and underscores |
| CommandList.CommandTableTriggers | app/bot.py:28-38 | every trigger is well formed |
| CommandList.DescriptionsOneLine | app/bot.py:29-33 | the first five descriptions hold no newline |
| CommandList.MoreDescriptionsOneLine | app/bot.py:34-37 | the last four descriptions hold no newline |
| CommandList.CommandTableDescriptions | app/bot.py:28-38 | no description holds a newline |
| CommandList.CommandTableWellFormed | app/bot.py:28-38 | the bot's table is well formed |
| CommandList.TableEndpoints | app/bot.py:85 | `/search_devices` searches `devices` and `/search_power_supply` searches `power-supply` |
| CommandList.CommandTableEndpoints | app/bot.py:85 | endpoints are injective over the table, and only entry 1 (`/search_devices`) searches `devices` |
| CommandList.CommandTableHelp | app/bot.py:44-47 | the bot's help listing has one line per entry, in order, each trigger once |
| Bot.ParseCommand | app/bot.py:73-79 | definition: the command and the query of a message text; characterized by `ParseCommandSplit` |
| Bot.ResultsReply | app/bot.py:89-107 | definition: the one reply for the search results; characterized by `ResultsReplyCases`, `ResultsReplyShapes` and `ApiErrorIff` |
| Bot.HandleSearch | app/bot.py:68-107 | definition: `handle_search_command` as a function of the text and the transport outcome; `HandleSearchCommand` is its imperative twin |
| Bot.Route | app/bot.py:49-115 | definition: the handler the dispatcher picks for a message; characterized by the routing lemmas |
| Bot.HandleMessage | app/bot.py:49-115 | definition: the answer of the handler a message is routed to |
| Bot.ParseCommandSplit | app/bot.py:73-79 | the command holds no space; the text is the command alone iff it has no space, otherwise command + space + query |
| Bot.IterateSpec | app/bot.py:95 | `for` walks lists by element, dicts by key and strings by character, with item i being element i, key i or character i as a one-character string; other values raise |
| Bot.RecordBlocks | app/bot.py:95-100 | definition: each record's block outcome, in record order; characterized by `RecordBlocksAppend`, `BlocksAppend`, `BlocksSingle` and `BlocksOk` |
| Bot.RecordBlocksAppend | app/bot.py:95-100 | the blocks of two runs of records are the first run's blocks followed by the second's |
| Bot.WordPrefix | app/bot.py:49 | the first word is a prefix of the text and ends at whitespace or at the end |
| Bot.WordOfPrefix | app/bot.py:49 | a word followed by whitespace or nothing is read back whole |
| Bot.FormatRecord | app/bot.py:96-100 | one record's text is the device block under `devices` and the name/description block otherwise |
| Bot.BuildResponse | app/bot.py:94-100 | the loop builds the header followed by every record's block, or raises the first record's error |
| Bot.HandleSearchCommand | app/bot.py:69-107 | the imperative handler sends exactly the specified replies and issues exactly the specified search |
| Bot.ConcatenateStep | app/bot.py:95-100 | one more record extends the response by that record's block |
| Bot.ConcatenateRaisedAt | app/bot.py:95-100 | the first record that raises ends the walk with its error |
| Bot.ConcatenateOk | app/bot.py:95-100 | the walk succeeds iff every record's block does |
| Bot.ConcatenateAppend | app/bot.py:95-100 | the body for two runs of records is the first run's body followed by the second's |
| Bot.ConcatenateSingle | app/bot.py:95-100 | a one-record walk is that record's block |
| Bot.BlocksOk | app/bot.py:95-100 | the response body exists iff every record's block does |
| Bot.BlocksAppend | app/bot.py:95-100 | the response body is the records' blocks in record order |
| Bot.BlocksSingle | app/bot.py:95-100 | a single record's part of the response is its own block |
| Bot.RecordBlockEndsBlank | app/bot.py:97-100 | every record block ends with `"\n\n"` |
| Bot.NonObjectRecord | app/bot.py:96-99 | a non-dict record is "Некорректные данные об устройстве." under `devices` and raises AttributeError under any other endpoint |
| Bot.SummaryBlockOfStrings | app/bot.py:99-100 | with string fields, the block is the bold escaped name and the escaped description, each decodable back to the field |
| Bot.SummaryBlockNonText | app/bot.py:99 | a number, boolean or null name makes the block raise TypeError |
| Bot.SummaryBlockNonTextDescription | app/bot.py:99 | with a string name, a number, boolean or null description makes the block raise TypeError |
| Bot.ResultsReplyCases | app/bot.py:89-107 | null gives the API error; another falsy value gives "Ничего не найдено." (Markdown); a list gives the header + blocks, or the failure reply when a record raises; a truthy number or boolean gives the failure reply |
| Bot.ObjectResultsFail | app/bot.py:95-99 | a non-empty dict result is walked by key, and outside `devices` this gives the failure reply |
| Bot.ResultsReplyShapes | app/bot.py:89-107 | every search reply is one of four shapes: API error, nothing found, failure, or Markdown text starting with the header |
| Bot.UnknownCommandHelp | app/bot.py:73-77 | a command not in the table gives the unknown reply + help listing and no search, and only such a command does |
| Bot.RequestIff | app/bot.py:79-86 | a search is issued iff the command is known and the query non-empty; it is for the derived endpoint and the verbatim query, with exactly one reply |
| Bot.EmptyQueryPrompt | app/bot.py:79-82 | a known trigger alone, or with a trailing space, gets the entry's prompt and no search |
| Bot.QueryVerbatim | app/bot.py:79-86 | `trigger query` searches the entry's endpoint for exactly `query` and sends the reply for its results |
| Bot.ApiErrorIff | app/bot.py:86-91 | the API-error reply comes iff the server sent a dict with `"results": null`; a failed request reads as "Ничего не найдено." |
| Bot.FailureIndistinguishable | app/bot.py:86 | the handler answers a failed request as it answers an empty body or an empty result list |
| Bot.StartRoutesToWelcome | app/bot.py:49-66 | `/start`, alone or followed by whitespace, goes to the welcome handler and gets the welcome text, with no search, for every table and transport |
| Bot.SearchTextRoutesToSearch | app/bot.py:68 | every text starting with `/search_` goes to the search handler |
| Bot.OtherRoutesToUnknown | app/bot.py:109-115 | a missing text, or one that is neither `/start` nor `/search_…`, gets the unknown reply and the help listing |
| Bot.UnknownCommandAnyRoute | app/bot.py:68-77 | outside `/start`, a command missing from the table gets the same answer from either handler |
| Bot.MessageRequestIff | app/bot.py:68-86 | over a well-formed table, a message leads to a search iff its command is in the table and its query is non-empty |
| BotCommands.DeviceFormatterOnlyForDevices | app/bot.py:85-97 | among the bot's triggers, only `/search_devices` searches `devices`, so only its records use the device formatter |
| BotCommands.EveryTriggerPrompts | app/bot.py:79-82 | every trigger of the bot's table, sent alone, gets its own prompt |
| BotCommands.IpamPrompt | app/bot.py:79-82 | `/search_ipam` alone prompts for "Поиск IP-адресов" |
| BotCommands.CablesNotListed | app/bot.py:28-38 | `/search_cables` is not a trigger of the table |
| BotCommands.UnlistedTrigger | app/bot.py:68-77 | `/search_cables …` gets the unknown reply and the help listing |

## Left out

- app/main.py and app/config.py (service start-up, environment loading) are not part of this model.
- The `NetBoxClient` constructor and its CA-file check (app/netbox_client.py:27-41) are not modelled. They only read settings and touch the filesystem; the headers and the CA path do not affect any modelled result.
- The HTTP exchange in `_fetch_data` (session, TLS context, `raise_for_status`, `response.json()`) is the `Transport` parameter. `Failed` stands for every exception the handlers at app/netbox_client.py:62-67 catch. The `response.content` test (lines 52-54) is covered as a delivered falsy body, which `ShapeResponse` also turns into `[]`.
- Decoded objects may hold duplicate keys in the model. `Get` takes the first entry while `json.loads` keeps the last; `GetDistinct` shows the two agree on the distinct-key objects `json.loads` actually builds.
- Logging everywhere.
- The model assumes Telegram accepts every reply. In the source, both `message.reply` calls of the search handler (app/bot.py:90, 104) run inside its `try` (lines 84-107). A reply Telegram refuses, for instance one over its length limit or with Markdown it cannot parse, is then answered by the failure reply instead. The model does not capture that.
- aiogram's polling, its handler dispatch and `message.reply` are represented only by `Route`, `HandleMessage` and the `Answer` value. Sending, ordering across messages, concurrency and Telegram's rejection of malformed Markdown are not modelled.
- The `Command("start")` filter is modelled as "the first whitespace-separated word is `/start`". Its other features are not modelled: the `@botname` mention check, which needs the bot's own name, and commands in photo captions.
- Markdown rendering is not modelled. The escaper follows the MarkdownV2 reserved set, while the search reply is sent with `parse_mode="Markdown"`. How Telegram renders the result is outside the model.
- `str.capitalize` is modelled on ASCII letters only; other characters pass unchanged. `str()` of lists and dicts is an approximation with single-quoted strings, without Python's quoting and escaping; JSON numbers are integers only.
- `start_bot`'s exception handler (app/bot.py:127-128) is not modelled; the modelled start-up decision cannot raise.
- The `Search` result does not depend on the endpoint or the query. The transport outcome is given for the request recorded in `Answer.request`.

## Findings

| source | as written | input that shows it | evidently intended | confidence | as-written member | corrected member |
|---|---|---|---|---|---|---|
| app/netbox_client.py:79-84 | `check_connection` returns True whenever `_fetch_data("status")` returns, and `_fetch_data` never raises, so the `except` branch is dead | NetBox unreachable: the status request fails, `[]` is returned, and the check still reports success, so `start_bot` starts polling | the check fails when the status request fails, so the bot does not start | not executed | NetBoxClient.CheckConnectionAsWritten, NetBoxClient.UnreachableServerStillStarts | NetBoxClient.CheckConnection, NetBoxClient.StartRequiresReachableServer |
