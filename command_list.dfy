/**
 * The `COMMANDS` dict of app/bot.py (lines 28-38) and the facts about it the
 * router relies on: distinct triggers of the `/search_<word>` form and
 * one-line descriptions.
 */
module CommandList {
  import opened Json
  import opened PyStrings
  import opened Commands

  /** The table, in the dict's insertion order; every trigger is `/search_` followed by a word. */
  const CommandTable: seq<Command> := [
    Command(SearchPrefix + "racks", "Поиск стоек"),
    Command(SearchPrefix + "devices", "Поиск устройств"),
    Command(SearchPrefix + "connections", "Поиск соединений"),
    Command(SearchPrefix + "wireless", "Поиск беспроводных устройств"),
    Command(SearchPrefix + "ipam", "Поиск IP-адресов"),
    Command(SearchPrefix + "vpn", "Поиск VPN"),
    Command(SearchPrefix + "virtualization", "Поиск виртуальных машин"),
    Command(SearchPrefix + "communication_channels", "Поиск каналов связи"),
    Command(SearchPrefix + "power_supply", "Поиск источников питания")
  ]

  /** The triggers have pairwise different lengths, hence are distinct. */
  lemma CommandTableDistinct()
    ensures forall i, j :: 0 <= i < j < |CommandTable| ==> CommandTable[i].trigger != CommandTable[j].trigger
  {
    assert forall i, j :: 0 <= i < j < |CommandTable| ==>
             |CommandTable[i].trigger| != |CommandTable[j].trigger|;
  }

  lemma TableWords()
    ensures IsWord("racks")
    ensures IsWord("devices")
    ensures IsWord("connections")
    ensures IsWord("wireless")
    ensures IsWord("ipam")
    ensures IsWord("vpn")
    ensures IsWord("virtualization")
    ensures IsWord("communication_channels")
    ensures IsWord("power_supply")
  {
  }

  lemma CommandTableTriggers()
    ensures forall k :: 0 <= k < |CommandTable| ==> WellFormedTrigger(CommandTable[k].trigger)
  {
    TableWords();
    forall k | 0 <= k < |CommandTable|
      ensures WellFormedTrigger(CommandTable[k].trigger)
    {
      if k == 0 { TriggerOfWord("racks");
      } else if k == 1 { TriggerOfWord("devices");
      } else if k == 2 { TriggerOfWord("connections");
      } else if k == 3 { TriggerOfWord("wireless");
      } else if k == 4 { TriggerOfWord("ipam");
      } else if k == 5 { TriggerOfWord("vpn");
      } else if k == 6 { TriggerOfWord("virtualization");
      } else if k == 7 { TriggerOfWord("communication_channels");
      } else { TriggerOfWord("power_supply");
      }
    }
  }

  /**
   * The first five description literals hold no newline. The nine facts are split over
   * two lemmas because each literal costs the solver a character-by-character
   * search, and all nine in one proof come close to the resource bound.
   */
  lemma DescriptionsOneLine()
    ensures '\n' !in "Поиск стоек"
    ensures '\n' !in "Поиск устройств"
    ensures '\n' !in "Поиск соединений"
    ensures '\n' !in "Поиск беспроводных устройств"
    ensures '\n' !in "Поиск IP-адресов"
  {
  }

  /** The remaining four description literals; see `DescriptionsOneLine`. */
  lemma MoreDescriptionsOneLine()
    ensures '\n' !in "Поиск VPN"
    ensures '\n' !in "Поиск виртуальных машин"
    ensures '\n' !in "Поиск каналов связи"
    ensures '\n' !in "Поиск источников питания"
  {
  }

  lemma CommandTableDescriptions()
    ensures forall k :: 0 <= k < |CommandTable| ==> '\n' !in CommandTable[k].description
  {
    DescriptionsOneLine();
    MoreDescriptionsOneLine();
    forall k | 0 <= k < |CommandTable|
      ensures '\n' !in CommandTable[k].description
    {
      if k == 0 { assert CommandTable[0].description == "Поиск стоек";
      } else if k == 1 { assert CommandTable[1].description == "Поиск устройств";
      } else if k == 2 { assert CommandTable[2].description == "Поиск соединений";
      } else if k == 3 { assert CommandTable[3].description == "Поиск беспроводных устройств";
      } else if k == 4 { assert CommandTable[4].description == "Поиск IP-адресов";
      } else if k == 5 { assert CommandTable[5].description == "Поиск VPN";
      } else if k == 6 { assert CommandTable[6].description == "Поиск виртуальных машин";
      } else if k == 7 { assert CommandTable[7].description == "Поиск каналов связи";
      } else { assert CommandTable[8].description == "Поиск источников питания";
      }
    }
  }

  lemma CommandTableWellFormed()
    ensures WellFormedTable(CommandTable)
  {
    CommandTableDistinct();
    CommandTableTriggers();
    CommandTableDescriptions();
  }

  /** `/search_devices` searches `devices` and `/search_power_supply` searches `power-supply`. */
  lemma TableEndpoints()
    ensures Endpoint(CommandTable[1].trigger) == "devices"
    ensures Endpoint(CommandTable[8].trigger) == "power-supply"
  {
    EndpointOfWord("devices", "devices");
    EndpointOfWord("power_supply", "power-supply");
  }

  /** No two entries search the same endpoint; in particular only `/search_devices` uses the device formatter. */
  lemma CommandTableEndpoints()
    ensures forall i, j ::
              (0 <= i < |CommandTable| && 0 <= j < |CommandTable| &&
               Endpoint(CommandTable[i].trigger) == Endpoint(CommandTable[j].trigger)) ==> i == j
    ensures forall k :: 0 <= k < |CommandTable| ==> (Endpoint(CommandTable[k].trigger) == "devices" <==> k == 1)
  {
    CommandTableWellFormed();
    forall i, j | 0 <= i < |CommandTable| && 0 <= j < |CommandTable| &&
                  Endpoint(CommandTable[i].trigger) == Endpoint(CommandTable[j].trigger)
      ensures i == j
    {
      TableEndpointsInjective(CommandTable, i, j);
    }
    TableEndpoints();
  }

  /** The help listing of this table: one line per entry, in order, each trigger once. */
  lemma CommandTableHelp()
    ensures var lines := SplitLines(HelpLines(CommandTable));
            |lines| == |CommandTable| + 1 && lines[|CommandTable|] == "" &&
            (forall k :: 0 <= k < |CommandTable| ==> lines[k] == EntryText(CommandTable[k])) &&
            (forall k :: 0 <= k < |CommandTable| ==> SplitOnce(lines[k], ' ').0 == CommandTable[k].trigger) &&
            (forall i, j :: 0 <= i < j < |CommandTable| ==> SplitOnce(lines[i], ' ').0 != SplitOnce(lines[j], ' ').0)
  {
    CommandTableWellFormed();
    HelpListingLines(CommandTable);
  }
}
