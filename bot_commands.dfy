/**
 * The search handler of app/bot.py over the bot's own `COMMANDS` table:
 * which entries reach the device formatter, the prompt every entry gives
 * without a query, and a trigger outside the table.
 */
module BotCommands {
  import opened Json
  import opened PyStrings
  import opened NetBoxClient
  import opened Commands
  import opened CommandList
  import opened Bot

  /** Only `/search_devices` searches the `devices` endpoint, so only its records go through the device formatter. */
  lemma DeviceFormatterOnlyForDevices(k: nat, query: string, t: Transport)
    requires k < |CommandTable| && query != ""
    ensures var a := HandleSearch(CommandTable, CommandTable[k].trigger + " " + query, t);
            a.request.Some? && (a.request.value.endpoint == "devices" <==> k == 1)
  {
    CommandTableWellFormed();
    QueryVerbatim(CommandTable, k, query, t);
    CommandTableEndpoints();
  }

  /** Every entry of the table, sent without a query, is answered with the prompt naming its description. */
  lemma EveryTriggerPrompts(k: nat, t: Transport)
    requires k < |CommandTable|
    ensures HandleSearch(CommandTable, CommandTable[k].trigger, t) ==
            Answer([Plain(PromptText(CommandTable[k].description))], None)
  {
    CommandTableWellFormed();
    EmptyQueryPrompt(CommandTable, k, t);
  }

  /** `/search_ipam` alone prompts for an IP-address query. */
  lemma IpamPrompt(t: Transport)
    ensures HandleSearch(CommandTable, "/search_ipam", t) == Answer([Plain(PromptText("Поиск IP-адресов"))], None)
  {
    assert CommandTable[4].trigger == "/search_ipam";
    EveryTriggerPrompts(4, t);
  }

  /** A `/search_` trigger outside the table gets the unknown-command reply and the help listing, and nothing is searched. */
  lemma UnlistedTrigger(query: string, t: Transport)
    ensures HandleMessage(CommandTable, Some("/search_cables " + query), t) == UnknownAnswer(CommandTable)
  {
    var text := "/search_cables " + query;
    assert text == "/search_cables" + [' '] + query;
    assert ' ' !in "/search_cables";
    SplitOnceOfJoin("/search_cables", ' ', query);
    assert StartsWith(text, SearchPrefix);
    SearchTextRoutesToSearch(text);
    CablesNotListed();
  }

  lemma CablesNotListed()
    ensures Lookup(CommandTable, "/search_cables").None?
  {
    LookupSpec(CommandTable, "/search_cables");
    assert forall k :: 0 <= k < |CommandTable| ==> |CommandTable[k].trigger| != |"/search_cables"|;
  }
}
