/**
 * Entries of the `COMMANDS` dict of app/bot.py and what the bot derives from
 * them: the dict lookup, the endpoint each trigger searches (line 85) and the
 * help listing `send_help_message` sends (lines 40-47), for any table.
 */
module Commands {
  import opened Json
  import opened PyStrings

  /** One entry of the table: the trigger a user types and the description shown in replies. */
  datatype Command = Command(trigger: string, description: string)

  /** The prefix every search trigger starts with (the handler filter at line 68 and the replace at line 85). */
  const SearchPrefix: string := "/search_"

  function Triggers(table: seq<Command>): seq<string>
  {
    seq(|table|, k requires 0 <= k < |table| => table[k].trigger)
  }

  /** `COMMANDS.get(trigger)`: the description of the first entry with that trigger. */
  function Lookup(table: seq<Command>, trigger: string): Option<string> {
    if |table| == 0 then None
    else if table[0].trigger == trigger then Some(table[0].description)
    else Lookup(table[1..], trigger)
  }

  /** `trigger in COMMANDS` holds exactly for the table's triggers, and the description found belongs to an entry with that trigger. */
  lemma {:induction false} LookupSpec(table: seq<Command>, trigger: string)
    ensures Lookup(table, trigger).Some? <==> trigger in Triggers(table)
    ensures Lookup(table, trigger).Some? ==>
              exists k :: 0 <= k < |table| && table[k] == Command(trigger, Lookup(table, trigger).value)
  {
    if |table| > 0 {
      LookupSpec(table[1..], trigger);
      assert Triggers(table) == [table[0].trigger] + Triggers(table[1..]);
      if table[0].trigger != trigger && Lookup(table, trigger).Some? {
        var k :| 0 <= k < |table| - 1 && table[1..][k] == Command(trigger, Lookup(table, trigger).value);
        assert table[k + 1] == Command(trigger, Lookup(table, trigger).value);
      }
    }
  }

  /** With distinct triggers, every entry is found under its own trigger. */
  lemma {:induction false} LookupEntry(table: seq<Command>, k: nat)
    requires k < |table|
    requires forall i, j :: 0 <= i < j < |table| ==> table[i].trigger != table[j].trigger
    ensures Lookup(table, table[k].trigger) == Some(table[k].description)
  {
    if k > 0 {
      assert table[0].trigger != table[k].trigger;
      assert table[1..][k - 1] == table[k];
      LookupEntry(table[1..], k - 1);
    }
  }

  /** The table's triggers are pairwise distinct, and every one is `/search_` followed by a word without `/`, `-`, space or newline. */
  predicate WellFormedTable(table: seq<Command>) {
    && (forall i, j :: 0 <= i < j < |table| ==> table[i].trigger != table[j].trigger)
    && (forall k :: 0 <= k < |table| ==> WellFormedTrigger(table[k].trigger))
    && (forall k :: 0 <= k < |table| ==> '\n' !in table[k].description)
  }

  predicate WellFormedTrigger(t: string) {
    && StartsWith(t, SearchPrefix)
    && '/' !in t[|SearchPrefix|..] && '-' !in t[|SearchPrefix|..]
    && ' ' !in t && '\n' !in t
  }

  /** A search word: lower-case ASCII letters and underscores only. */
  predicate IsWord(w: string) {
    forall i :: 0 <= i < |w| ==> 'a' <= w[i] <= 'z' || w[i] == '_'
  }

  lemma TriggerOfWord(word: string)
    requires IsWord(word)
    ensures WellFormedTrigger(SearchPrefix + word)
  {
    var t := SearchPrefix + word;
    assert t[..|SearchPrefix|] == SearchPrefix;
    assert t[|SearchPrefix|..] == word;
    assert forall c :: c in t ==> c in SearchPrefix || c in word;
  }

  /** Line 85: `/search_` removed, then every `_` replaced by `-`. */
  function Endpoint(trigger: string): string {
    ReplaceAll(ReplaceAll(trigger, SearchPrefix, ""), "_", "-")
  }

  /** For a trigger `/search_` + word without `/`, the endpoint is the word with `_` mapped to `-`. */
  lemma EndpointOfSearch(word: string)
    requires '/' !in word
    ensures Endpoint(SearchPrefix + word) == MapChar(word, '_', '-')
  {
    var t := SearchPrefix + word;
    assert StartsWith(t, SearchPrefix);
    assert t[|SearchPrefix|..] == word;
    ReplaceAbsent(word, SearchPrefix, "");
    assert ReplaceAll(t, SearchPrefix, "") == word;
    ReplaceSingleChar(word, '_', '-');
  }

  /** Among words without `/` or `-`, distinct triggers search distinct endpoints. */
  lemma EndpointInjective(a: string, b: string)
    requires '/' !in a && '-' !in a && '/' !in b && '-' !in b
    requires Endpoint(SearchPrefix + a) == Endpoint(SearchPrefix + b)
    ensures a == b
  {
    EndpointOfSearch(a);
    EndpointOfSearch(b);
    var ma := MapChar(a, '_', '-');
    assert |a| == |b|;
    forall i | 0 <= i < |a|
      ensures a[i] == b[i]
    {
      assert a[i] in a && b[i] in b;
      assert ma[i] == MapChar(b, '_', '-')[i];
    }
  }

  /** Over a well-formed table, the endpoint determines the entry. */
  lemma TableEndpointsInjective(table: seq<Command>, i: nat, j: nat)
    requires WellFormedTable(table) && i < |table| && j < |table|
    requires Endpoint(table[i].trigger) == Endpoint(table[j].trigger)
    ensures i == j
  {
    var ti, tj := table[i].trigger, table[j].trigger;
    assert ti == SearchPrefix + ti[|SearchPrefix|..];
    assert tj == SearchPrefix + tj[|SearchPrefix|..];
    EndpointInjective(ti[|SearchPrefix|..], tj[|SearchPrefix|..]);
  }

  /** The first line of the help listing. */
  const HelpHeader: string := "Доступные команды:\n\n"

  /** Line 46: `f"{command} - {description}\n"`. */
  function HelpLine(c: Command): string {
    c.trigger + " - " + c.description + "\n"
  }

  /** The entry lines of the listing, in table order. */
  function HelpLines(table: seq<Command>): string {
    if |table| == 0 then "" else HelpLine(table[0]) + HelpLines(table[1..])
  }

  /** The whole listing `send_help_message` replies with. */
  function HelpText(table: seq<Command>): string {
    HelpHeader + HelpLines(table)
  }

  /** Appending an entry appends its line: the listing grows the way the loop builds it. */
  lemma {:induction false} HelpLinesSnoc(table: seq<Command>, c: Command)
    ensures HelpLines(table + [c]) == HelpLines(table) + HelpLine(c)
  {
    if |table| == 0 {
      assert [c][1..] == [];
    } else {
      assert (table + [c])[1..] == table[1..] + [c];
      HelpLinesSnoc(table[1..], c);
    }
  }

  /** Lines 44-47: the listing accumulated entry by entry. */
  method SendHelpMessage(table: seq<Command>) returns (helpText: string)
    ensures helpText == HelpText(table)
  {
    helpText := HelpHeader;
    var i := 0;
    while i < |table|
      invariant 0 <= i <= |table|
      invariant helpText == HelpHeader + HelpLines(table[..i])
    {
      var command := table[i];
      helpText := helpText + command.trigger + " - " + command.description + "\n";
      HelpLinesSnoc(table[..i], command);
      assert table[..i + 1] == table[..i] + [command];
      i := i + 1;
    }
    assert table[..i] == table;
  }

  /** `s.split("\n")`. */
  function SplitLines(s: string): seq<string>
    decreases |s|
  {
    var (head, tail) := SplitOnce(s, '\n');
    if tail.None? then [head] else [head] + SplitLines(tail.value)
  }

  /** The text of an entry's help line, without its newline. */
  function EntryText(c: Command): string {
    c.trigger + " - " + c.description
  }

  /** The entry lines split at newlines: one line per entry, in table order, then the empty rest. */
  lemma {:induction false} HelpLinesSplit(table: seq<Command>)
    requires forall k :: 0 <= k < |table| ==> '\n' !in EntryText(table[k])
    ensures SplitLines(HelpLines(table)) ==
            seq(|table|, k requires 0 <= k < |table| => EntryText(table[k])) + [""]
  {
    if |table| == 0 {
      assert SplitOnce("", '\n') == ("", None);
    } else {
      var rest := HelpLines(table[1..]);
      assert HelpLines(table) == EntryText(table[0]) + ['\n'] + rest;
      SplitOnceOfJoin(EntryText(table[0]), '\n', rest);
      HelpLinesSplit(table[1..]);
      var tail := seq(|table| - 1, k requires 0 <= k < |table| - 1 => EntryText(table[1..][k]));
      assert seq(|table|, k requires 0 <= k < |table| => EntryText(table[k])) == [EntryText(table[0])] + tail;
    }
  }

  /** The text before the first space of an entry's line is its trigger. */
  lemma EntryTrigger(c: Command)
    requires ' ' !in c.trigger
    ensures SplitOnce(EntryText(c), ' ').0 == c.trigger
  {
    assert EntryText(c) == c.trigger + [' '] + ("- " + c.description);
    SplitOnceOfJoin(c.trigger, ' ', "- " + c.description);
  }

  /**
   * The listing of a well-formed table holds, after the header, exactly one
   * line per entry, in table order, and the first word of line `k` is the
   * trigger of entry `k`; since triggers are distinct, each appears once.
   */
  lemma HelpListingLines(table: seq<Command>)
    requires WellFormedTable(table)
    ensures var lines := SplitLines(HelpLines(table));
            |lines| == |table| + 1 && lines[|table|] == "" &&
            (forall k :: 0 <= k < |table| ==> lines[k] == EntryText(table[k])) &&
            (forall k :: 0 <= k < |table| ==> SplitOnce(lines[k], ' ').0 == table[k].trigger) &&
            (forall i, j :: 0 <= i < j < |table| ==> SplitOnce(lines[i], ' ').0 != SplitOnce(lines[j], ' ').0)
  {
    forall k | 0 <= k < |table|
      ensures '\n' !in EntryText(table[k]) && SplitOnce(EntryText(table[k]), ' ').0 == table[k].trigger
    {
      assert WellFormedTrigger(table[k].trigger);
      EntryTrigger(table[k]);
    }
    HelpLinesSplit(table);
  }

  lemma EndpointOfWord(word: string, endpoint: string)
    requires '/' !in word && MapChar(word, '_', '-') == endpoint
    ensures Endpoint(SearchPrefix + word) == endpoint
  {
    EndpointOfSearch(word);
  }
}
