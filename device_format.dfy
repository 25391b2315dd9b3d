/**
 * `NetBoxClient._format_device_details` (app/netbox_client.py:86-131).
 *
 * The specification is table-driven: five fixed lines, then one line per
 * nested rule whose path leads through non-empty objects, then one line per
 * top-level key the formatter does not handle, in the record's own order.
 * `FormatDeviceDetails` is the source's imperative code (successive appends,
 * nested `if`s, a loop over `device.items()`) proved equal to it.
 */
module DeviceFormat {
  import opened Json
  import opened PyStrings
  import opened Markdown

  /** The reply for a record that is not an object (lines 90-91). */
  const Incorrect: string := "Некорректные данные об устройстве."

  /** The keys the fixed and nested lines cover (line 128); all others get an extra line. */
  const HandledKeys: seq<string> :=
    ["name", "id", "status", "serial", "asset_tag", "device_type", "site", "rack", "location", "primary_ip"]

  const NA: Json := JStr("N/A")

  /** `"  - *{caption}*: "`, the start of every line after the first. */
  function Caption(caption: string): string {
    "  - *" + caption + "*: "
  }

  /** `"  - *{caption}*: {escape_markdown(value)}"`. */
  function FieldLine(caption: string, value: Json): Outcome<string> {
    var e :- EscapeValue(value);
    Ok(Caption(caption) + e)
  }

  /** Line 96: the bold name. */
  function NameLine(f: seq<(string, Json)>): Outcome<string> {
    var e :- EscapeValue(GetOr(f, "name", NA));
    Ok("🔹 *" + e + "*")
  }

  /** Line 97: the id goes through `str` first, so this line never fails. */
  function IdLine(f: seq<(string, Json)>): string {
    Caption("ID") + Escape(PyStr(GetOr(f, "id", NA)))
  }

  /** Line 98: `device.get('status', {}).get('label', 'N/A')`; a status that is not an object has no `.get`. */
  function StatusLine(f: seq<(string, Json)>): Outcome<string> {
    match GetOr(f, "status", JObj([]))
    case JObj(sf) => FieldLine("Статус", GetOr(sf, "label", NA))
    case _ => Raised(AttributeError)
  }

  /** Lines 96-100, evaluated in source order. */
  function FixedLines(f: seq<(string, Json)>): Outcome<seq<string>> {
    var name :- NameLine(f);
    var status :- StatusLine(f);
    var serial :- FieldLine("Серийный номер", GetOr(f, "serial", NA));
    var asset :- FieldLine("Asset Tag", GetOr(f, "asset_tag", NA));
    Ok([name, IdLine(f), status, serial, asset])
  }

  /** A conditional line: shown when every object on `path` is a non-empty dict; it prints `field` of the last one. */
  datatype NestedRule = NestedRule(path: seq<string>, field: string, caption: string)

  /** Lines 103-124 as a rule table, in source order. */
  const NestedRules: seq<NestedRule> := [
    NestedRule(["device_type"], "model", "Тип устройства"),
    NestedRule(["device_type", "manufacturer"], "name", "Производитель"),
    NestedRule(["site"], "name", "Сайт"),
    NestedRule(["rack"], "name", "Стойка"),
    NestedRule(["location"], "name", "Локация"),
    NestedRule(["primary_ip"], "address", "Основной IP")
  ]

  /** Follows `path` through `x = d.get(k)` steps as long as each `x and isinstance(x, dict)` holds. */
  function Resolve(f: seq<(string, Json)>, path: seq<string>): Option<seq<(string, Json)>>
    decreases |path|
  {
    if |path| == 0 then Some(f)
    else
      var v := GetOr(f, path[0], JNull);
      if NonEmptyObject(v) then Resolve(v.fields, path[1..]) else None
  }

  /** A path resolves exactly when every object along it is a non-empty dict. */
  lemma ResolveOne(f: seq<(string, Json)>, k: string)
    ensures Resolve(f, [k]).Some? <==> NonEmptyObject(GetOr(f, k, JNull))
    ensures Resolve(f, [k]).Some? ==> Resolve(f, [k]).value == GetOr(f, k, JNull).fields
  {
    assert [k][1..] == [];
  }

  /** The manufacturer line needs a non-empty device type holding a non-empty manufacturer (lines 104-108). */
  lemma ResolveTwo(f: seq<(string, Json)>, a: string, b: string)
    ensures Resolve(f, [a, b]).Some? <==>
              NonEmptyObject(GetOr(f, a, JNull)) && NonEmptyObject(GetOr(GetOr(f, a, JNull).fields, b, JNull))
    ensures Resolve(f, [a, b]).Some? ==> Resolve(f, [a]).Some?
    ensures NonEmptyObject(GetOr(f, a, JNull)) ==> Resolve(f, [a, b]) == Resolve(GetOr(f, a, JNull).fields, [b])
  {
    assert [a, b][1..] == [b];
    ResolveOne(f, a);
    if NonEmptyObject(GetOr(f, a, JNull)) {
      ResolveOne(GetOr(f, a, JNull).fields, b);
    }
  }

  /** The rules whose line is shown, in table order. */
  function Applicable(rules: seq<NestedRule>, f: seq<(string, Json)>): seq<NestedRule> {
    if |rules| == 0 then []
    else if Resolve(f, rules[0].path).Some? then [rules[0]] + Applicable(rules[1..], f)
    else Applicable(rules[1..], f)
  }

  /** The shown rules are exactly the table's rules whose path resolves. */
  lemma {:induction false} ApplicableSpec(rules: seq<NestedRule>, f: seq<(string, Json)>)
    ensures |Applicable(rules, f)| <= |rules|
    ensures forall r :: r in Applicable(rules, f) <==> r in rules && Resolve(f, r.path).Some?
  {
    if |rules| > 0 {
      ApplicableSpec(rules[1..], f);
      assert forall r :: r in rules <==> r == rules[0] || r in rules[1..];
    }
  }

  /** The conditional lines, rule by rule; the first rule whose value cannot be escaped raises. */
  function RuleLines(rules: seq<NestedRule>, f: seq<(string, Json)>): Outcome<seq<string>> {
    if |rules| == 0 then Ok([])
    else
      match Resolve(f, rules[0].path)
      case None => RuleLines(rules[1..], f)
      case Some(obj) =>
        var line :- RuleLine(rules[0], obj);
        var rest :- RuleLines(rules[1..], f);
        Ok([line] + rest)
  }

  /** The line one rule contributes when its path resolves. */
  function RuleLine(rule: NestedRule, obj: seq<(string, Json)>): Outcome<string> {
    FieldLine(rule.caption, GetOr(obj, rule.field, NA))
  }

  /** One conditional line per applicable rule, in order, each showing that rule's caption and escaped value. */
  lemma {:induction false} RuleLinesShape(rules: seq<NestedRule>, f: seq<(string, Json)>, lines: seq<string>)
    requires RuleLines(rules, f) == Ok(lines)
    ensures |lines| == |Applicable(rules, f)|
    ensures forall k :: 0 <= k < |lines| ==>
              Resolve(f, Applicable(rules, f)[k].path).Some? &&
              RuleLine(Applicable(rules, f)[k], Resolve(f, Applicable(rules, f)[k].path).value) == Ok(lines[k])
  {
    if |rules| > 0 {
      var app := Applicable(rules, f);
      var rest := Applicable(rules[1..], f);
      if Resolve(f, rules[0].path).None? {
        assert app == rest;
        RuleLinesShape(rules[1..], f, lines);
      } else {
        var obj := Resolve(f, rules[0].path).value;
        var line := RuleLine(rules[0], obj);
        assert line.Ok?;
        var more := RuleLines(rules[1..], f).value;
        assert lines == [line.value] + more;
        assert app == [rules[0]] + rest;
        RuleLinesShape(rules[1..], f, more);
        forall k | 0 <= k < |lines|
          ensures Resolve(f, app[k].path).Some? && RuleLine(app[k], Resolve(f, app[k].path).value) == Ok(lines[k])
        {
          if k > 0 {
            assert app[k] == rest[k - 1] && lines[k] == more[k - 1];
          }
        }
      }
    }
  }

  /** Indices of the entries whose key is not handled, increasing: the entries `device.items()` adds as extra lines. */
  function LeftoverIndices(f: seq<(string, Json)>): (idx: seq<nat>)
    ensures forall k :: 0 <= k < |idx| ==> idx[k] < |f| && f[idx[k]].0 !in HandledKeys
    ensures forall k, l :: 0 <= k < l < |idx| ==> idx[k] < idx[l]
    ensures forall j :: 0 <= j < |f| && f[j].0 !in HandledKeys ==> j in idx
  {
    if |f| == 0 then []
    else
      var n := |f| - 1;
      var front := LeftoverIndices(f[..n]);
      assert forall k :: 0 <= k < |front| ==> f[..n][front[k]] == f[front[k]];
      if f[n].0 in HandledKeys then front else front + [n]
  }

  /** Line 129: the key capitalised then escaped, the value stringified then escaped; never fails. */
  function ExtraLine(entry: (string, Json)): string {
    Caption(Escape(Capitalize(entry.0))) + Escape(PyStr(entry.1))
  }

  /** The extra lines, built the way the loop builds them: entry by entry, unhandled keys only. */
  function ExtraLines(f: seq<(string, Json)>): seq<string> {
    if |f| == 0 then []
    else
      var n := |f| - 1;
      ExtraLines(f[..n]) + (if f[n].0 in HandledKeys then [] else [ExtraLine(f[n])])
  }

  /** Entry by entry, the extra lines follow the unhandled entries of the record, in order. */
  lemma {:induction false} ExtraLinesIndexed(f: seq<(string, Json)>)
    ensures |ExtraLines(f)| == |LeftoverIndices(f)|
    ensures forall k :: 0 <= k < |ExtraLines(f)| ==> ExtraLines(f)[k] == ExtraLine(f[LeftoverIndices(f)[k]])
  {
    if |f| > 0 {
      var n := |f| - 1;
      ExtraLinesIndexed(f[..n]);
      var front, lines := LeftoverIndices(f[..n]), ExtraLines(f[..n]);
      forall k | 0 <= k < |front|
        ensures lines[k] == ExtraLine(f[front[k]])
      {
        assert f[..n][front[k]] == f[front[k]];
      }
      if f[n].0 in HandledKeys {
        assert ExtraLines(f) == lines && LeftoverIndices(f) == front;
      } else {
        assert ExtraLines(f) == lines + [ExtraLine(f[n])] && LeftoverIndices(f) == front + [n];
      }
    }
  }

  lemma ExtraLinesSnoc(f: seq<(string, Json)>, entry: (string, Json))
    ensures ExtraLines(f + [entry]) ==
            ExtraLines(f) + (if entry.0 in HandledKeys then [] else [ExtraLine(entry)])
  {
    assert (f + [entry])[..|f|] == f;
  }

  /** All lines of an object record under a rule table: fixed, then conditional, then extra. */
  function DeviceLines(rules: seq<NestedRule>, f: seq<(string, Json)>): Outcome<seq<string>> {
    var fixed :- FixedLines(f);
    var nested :- RuleLines(rules, f);
    Ok(fixed + nested + ExtraLines(f))
  }

  /** `_format_device_details(device)`, with Raised for the exceptions it lets escape. */
  function DeviceDetails(device: Json): Outcome<string> {
    if !device.JObj? then Ok(Incorrect)
    else
      var lines :- DeviceLines(NestedRules, device.fields);
      Ok(JoinLines(lines))
  }

  /** Combines lines already produced with the outcome of producing the rest. */
  function Prepend(done: seq<string>, rest: Outcome<seq<string>>): Outcome<seq<string>> {
    match rest
    case Ok(more) => Ok(done + more)
    case Raised(e) => Raised(e)
  }

  /** One step of the rule table: an applicable rule contributes its line first. */
  lemma RuleLinesStep(rules: seq<NestedRule>, f: seq<(string, Json)>, done: seq<string>)
    requires |rules| > 0
    ensures Resolve(f, rules[0].path).None? ==>
              Prepend(done, RuleLines(rules, f)) == Prepend(done, RuleLines(rules[1..], f))
    ensures Resolve(f, rules[0].path).Some? ==>
              var line := RuleLine(rules[0], Resolve(f, rules[0].path).value);
              (line.Raised? ==> Prepend(done, RuleLines(rules, f)) == Raised(line.error)) &&
              (line.Ok? ==> Prepend(done, RuleLines(rules, f)) == Prepend(done + [line.value], RuleLines(rules[1..], f)))
  {
    if Resolve(f, rules[0].path).Some? {
      var line := RuleLine(rules[0], Resolve(f, rules[0].path).value);
      if line.Ok? && RuleLines(rules[1..], f).Ok? {
        var more := RuleLines(rules[1..], f).value;
        assert done + ([line.value] + more) == done + [line.value] + more;
      }
    }
  }

  /** One step of the rule table for a rule whose path is the single key `k`. */
  lemma SingleKeyStep(rules: seq<NestedRule>, f: seq<(string, Json)>, done: seq<string>, k: string)
    requires |rules| > 0 && rules[0].path == [k]
    ensures var v := GetOr(f, k, JNull);
            var e := if v.JObj? then EscapeValue(GetOr(v.fields, rules[0].field, NA)) else Raised(TypeError);
            (!NonEmptyObject(v) ==> Prepend(done, RuleLines(rules, f)) == Prepend(done, RuleLines(rules[1..], f))) &&
            (NonEmptyObject(v) && e.Raised? ==> Prepend(done, RuleLines(rules, f)) == Raised(e.error)) &&
            (NonEmptyObject(v) && e.Ok? ==>
               Prepend(done, RuleLines(rules, f)) ==
               Prepend(done + [Caption(rules[0].caption) + e.value], RuleLines(rules[1..], f)))
  {
    ResolveOne(f, k);
    RuleLinesStep(rules, f, done);
  }

  /** The device-type rule (lines 103-105): skipping it also skips the manufacturer rule nested in it. */
  lemma DeviceTypeStep(f: seq<(string, Json)>, done: seq<string>)
    ensures var dt := GetOr(f, "device_type", JNull);
            var e := if dt.JObj? then EscapeValue(GetOr(dt.fields, "model", NA)) else Raised(TypeError);
            (!NonEmptyObject(dt) ==>
               Prepend(done, RuleLines(NestedRules, f)) == Prepend(done, RuleLines(NestedRules[2..], f))) &&
            (NonEmptyObject(dt) && e.Raised? ==> Prepend(done, RuleLines(NestedRules, f)) == Raised(e.error)) &&
            (NonEmptyObject(dt) && e.Ok? ==>
               Prepend(done, RuleLines(NestedRules, f)) ==
               Prepend(done + [Caption("Тип устройства") + e.value], RuleLines(NestedRules[1..], f)))
  {
    assert NestedRules[0] == NestedRule(["device_type"], "model", "Тип устройства");
    assert NestedRules[1..][0] == NestedRule(["device_type", "manufacturer"], "name", "Производитель");
    assert NestedRules[1..][1..] == NestedRules[2..];
    SingleKeyStep(NestedRules, f, done, "device_type");
    ResolveTwo(f, "device_type", "manufacturer");
    RuleLinesStep(NestedRules[1..], f, done);
  }

  /** The manufacturer rule (lines 106-108), reached only inside a non-empty device type. */
  lemma ManufacturerStep(f: seq<(string, Json)>, done: seq<string>)
    requires NonEmptyObject(GetOr(f, "device_type", JNull))
    ensures var m := GetOr(GetOr(f, "device_type", JNull).fields, "manufacturer", JNull);
            var e := if m.JObj? then EscapeValue(GetOr(m.fields, "name", NA)) else Raised(TypeError);
            (!NonEmptyObject(m) ==>
               Prepend(done, RuleLines(NestedRules[1..], f)) == Prepend(done, RuleLines(NestedRules[2..], f))) &&
            (NonEmptyObject(m) && e.Raised? ==> Prepend(done, RuleLines(NestedRules[1..], f)) == Raised(e.error)) &&
            (NonEmptyObject(m) && e.Ok? ==>
               Prepend(done, RuleLines(NestedRules[1..], f)) ==
               Prepend(done + [Caption("Производитель") + e.value], RuleLines(NestedRules[2..], f)))
  {
    var dt := GetOr(f, "device_type", JNull);
    assert NestedRules[1..][0] == NestedRule(["device_type", "manufacturer"], "name", "Производитель");
    assert NestedRules[1..][1..] == NestedRules[2..];
    ResolveTwo(f, "device_type", "manufacturer");
    ResolveOne(dt.fields, "manufacturer");
    RuleLinesStep(NestedRules[1..], f, done);
  }

  /** Lines 95-100: the five fixed lines, appended in order. */
  method AppendFixedLines(f: seq<(string, Json)>) returns (r: Outcome<seq<string>>)
    ensures r == FixedLines(f)
  {
    var details: seq<string> := [];
    var name :- EscapeValue(GetOr(f, "name", NA));
    details := details + ["🔹 *" + name + "*"];
    details := details + [Caption("ID") + Escape(PyStr(GetOr(f, "id", NA)))];
    var status := GetOr(f, "status", JObj([]));
    if !status.JObj? {
      return Raised(AttributeError);
    }
    var statusLabel :- EscapeValue(GetOr(status.fields, "label", NA));
    details := details + [Caption("Статус") + statusLabel];
    var serial :- EscapeValue(GetOr(f, "serial", NA));
    details := details + [Caption("Серийный номер") + serial];
    var asset :- EscapeValue(GetOr(f, "asset_tag", NA));
    details := details + [Caption("Asset Tag") + asset];
    assert NameLine(f) == Ok(details[0]);
    assert StatusLine(f) == Ok(details[2]);
    assert FieldLine("Серийный номер", GetOr(f, "serial", NA)) == Ok(details[3]);
    assert FieldLine("Asset Tag", GetOr(f, "asset_tag", NA)) == Ok(details[4]);
    assert details == [details[0], details[1], details[2], details[3], details[4]];
    r := Ok(details);
  }

  /** Lines 103-108 as the source writes them: the manufacturer test sits inside the device-type test. */
  method AppendDeviceTypeLines(f: seq<(string, Json)>, done: seq<string>) returns (r: Outcome<seq<string>>)
    ensures r.Raised? ==> Prepend(done, RuleLines(NestedRules, f)) == Raised(r.error)
    ensures r.Ok? ==> Prepend(done, RuleLines(NestedRules, f)) == Prepend(r.value, RuleLines(NestedRules[2..], f))
  {
    var details := done;
    DeviceTypeStep(f, details);
    var deviceType := GetOr(f, "device_type", JNull);
    if NonEmptyObject(deviceType) {
      var model :- EscapeValue(GetOr(deviceType.fields, "model", NA));
      ManufacturerStep(f, details + [Caption("Тип устройства") + model]);
      details := details + [Caption("Тип устройства") + model];
      var manufacturer := GetOr(deviceType.fields, "manufacturer", JNull);
      if NonEmptyObject(manufacturer) {
        var maker :- EscapeValue(GetOr(manufacturer.fields, "name", NA));
        details := details + [Caption("Производитель") + maker];
      }
    }
    r := Ok(details);
  }

  lemma NestedRulesTail()
    ensures NestedRules[2..][0] == NestedRule(["site"], "name", "Сайт")
    ensures NestedRules[3..][0] == NestedRule(["rack"], "name", "Стойка")
    ensures NestedRules[4..][0] == NestedRule(["location"], "name", "Локация")
    ensures NestedRules[5..][0] == NestedRule(["primary_ip"], "address", "Основной IP")
    ensures NestedRules[6..] == []
    ensures NestedRules[2..][1..] == NestedRules[3..]
    ensures NestedRules[3..][1..] == NestedRules[4..]
    ensures NestedRules[4..][1..] == NestedRules[5..]
    ensures NestedRules[5..][1..] == NestedRules[6..]
  {
  }

  /** One of lines 110-124: `x = device.get(key)`; when `x` is a non-empty dict, the line for `x.get(field, 'N/A')`. */
  method AppendKeyLine(f: seq<(string, Json)>, rules: seq<NestedRule>, done: seq<string>) returns (r: Outcome<seq<string>>)
    requires |rules| > 0 && |rules[0].path| == 1
    ensures r.Raised? ==> Prepend(done, RuleLines(rules, f)) == Raised(r.error)
    ensures r.Ok? ==> Prepend(done, RuleLines(rules, f)) == Prepend(r.value, RuleLines(rules[1..], f))
  {
    var key := rules[0].path[0];
    assert rules[0].path == [key];
    SingleKeyStep(rules, f, done, key);
    var x := GetOr(f, key, JNull);
    if NonEmptyObject(x) {
      var e :- EscapeValue(GetOr(x.fields, rules[0].field, NA));
      return Ok(done + [Caption(rules[0].caption) + e]);
    }
    r := Ok(done);
  }

  /** Lines 110-124: one `if` per nested field (site, rack, location, primary IP). */
  method AppendPlacementLines(f: seq<(string, Json)>, done: seq<string>) returns (r: Outcome<seq<string>>)
    ensures r == Prepend(done, RuleLines(NestedRules[2..], f))
  {
    NestedRulesTail();
    var details := done;
    details :- AppendKeyLine(f, NestedRules[2..], details);
    details :- AppendKeyLine(f, NestedRules[3..], details);
    details :- AppendKeyLine(f, NestedRules[4..], details);
    details :- AppendKeyLine(f, NestedRules[5..], details);
    assert details + [] == details;
    r := Ok(details);
  }

  /** Lines 126-129: one extra line per unhandled key, in `device.items()` order. */
  method AppendExtraLines(f: seq<(string, Json)>, done: seq<string>) returns (details: seq<string>)
    ensures details == done + ExtraLines(f)
  {
    details := done;
    var i := 0;
    while i < |f|
      invariant 0 <= i <= |f|
      invariant details == done + ExtraLines(f[..i])
    {
      ExtraLinesPrefixStep(done, f, i);
      details := AppendExtraLine(f[i], details);
      i := i + 1;
    }
    assert f[..i] == f;
  }

  /** Extending the walked prefix by one entry appends that entry's extra line, if any, after the lines so far. */
  lemma ExtraLinesPrefixStep(done: seq<string>, f: seq<(string, Json)>, i: nat)
    requires i < |f|
    ensures done + ExtraLines(f[..i + 1]) ==
            (done + ExtraLines(f[..i])) + (if f[i].0 in HandledKeys then [] else [ExtraLine(f[i])])
  {
    ExtraLinesSnoc(f[..i], f[i]);
    assert f[..i + 1] == f[..i] + [f[i]];
    AppendAssociative(done, ExtraLines(f[..i]), if f[i].0 in HandledKeys then [] else [ExtraLine(f[i])]);
  }

  /** Lines 127-129 for one entry of `device.items()`. */
  method AppendExtraLine(entry: (string, Json), done: seq<string>) returns (details: seq<string>)
    ensures details == done + (if entry.0 in HandledKeys then [] else [ExtraLine(entry)])
  {
    var (key, value) := entry;
    details := done;
    if key !in HandledKeys {
      details := details + [Caption(Escape(Capitalize(key))) + Escape(PyStr(value))];
    }
  }

  /** The source's code: appends to `details` in order, then walks `device.items()`. */
  method FormatDeviceDetails(device: Json) returns (r: Outcome<string>)
    ensures r == DeviceDetails(device)
  {
    if !device.JObj? {
      return Ok(Incorrect);
    }
    var f := device.fields;
    var details :- AppendFixedLines(f);
    details :- AppendDeviceTypeLines(f, details);
    details :- AppendPlacementLines(f, details);
    assert DeviceLines(NestedRules, f) == Ok(details + ExtraLines(f));
    details := AppendExtraLines(f, details);
    r := Ok(JoinLines(details));
  }

  /** An object record's lines are its fixed lines, then its conditional lines, then its extra lines. */
  lemma DeviceLinesParts(rules: seq<NestedRule>, f: seq<(string, Json)>)
    ensures DeviceLines(rules, f).Ok? <==> FixedLines(f).Ok? && RuleLines(rules, f).Ok?
    ensures DeviceLines(rules, f).Ok? ==>
              DeviceLines(rules, f).value == FixedLines(f).value + RuleLines(rules, f).value + ExtraLines(f)
  {
  }

  /** There are always five fixed lines, the id line second. */
  lemma FixedLinesShape(f: seq<(string, Json)>)
    ensures FixedLines(f).Ok? ==> |FixedLines(f).value| == 5
    ensures FixedLines(f).Ok? ==> FixedLines(f).value[1] == Caption("ID") + Escape(PyStr(GetOr(f, "id", NA)))
  {
  }

  /**
   * The layout of a formatted object record: the five fixed lines, then one
   * line per applicable rule, then one line per unhandled entry in record order.
   */
  lemma DeviceLayout(rules: seq<NestedRule>, f: seq<(string, Json)>, lines: seq<string>)
    requires DeviceLines(rules, f) == Ok(lines)
    ensures FixedLines(f).Ok? && lines[..5] == FixedLines(f).value
    ensures var app := Applicable(rules, f);
            |lines| == 5 + |app| + |LeftoverIndices(f)| &&
            (forall k :: 0 <= k < |app| ==>
               Resolve(f, app[k].path).Some? && RuleLine(app[k], Resolve(f, app[k].path).value) == Ok(lines[5 + k])) &&
            (forall k :: 0 <= k < |LeftoverIndices(f)| ==>
               lines[5 + |app| + k] == ExtraLine(f[LeftoverIndices(f)[k]]))
  {
    DeviceLinesParts(rules, f);
    FixedLinesShape(f);
    LayoutAfterFixed(FixedLines(f).value, rules, f, lines);
  }

  lemma LayoutAfterFixed(fixed: seq<string>, rules: seq<NestedRule>, f: seq<(string, Json)>, lines: seq<string>)
    requires |fixed| == 5 && RuleLines(rules, f).Ok?
    requires lines == fixed + RuleLines(rules, f).value + ExtraLines(f)
    ensures lines[..5] == fixed
    ensures var app := Applicable(rules, f);
            |lines| == 5 + |app| + |LeftoverIndices(f)| &&
            (forall k :: 0 <= k < |app| ==>
               Resolve(f, app[k].path).Some? && RuleLine(app[k], Resolve(f, app[k].path).value) == Ok(lines[5 + k])) &&
            (forall k :: 0 <= k < |LeftoverIndices(f)| ==>
               lines[5 + |app| + k] == ExtraLine(f[LeftoverIndices(f)[k]]))
  {
    var nested := RuleLines(rules, f).value;
    NestedLayout(fixed, rules, f, lines);
    ExtraLayout(fixed, nested, f, lines);
    assert lines[..5] == fixed;
  }

  /** The conditional lines sit right after the five fixed lines. */
  lemma NestedLayout(fixed: seq<string>, rules: seq<NestedRule>, f: seq<(string, Json)>, lines: seq<string>)
    requires |fixed| == 5 && RuleLines(rules, f).Ok?
    requires lines == fixed + RuleLines(rules, f).value + ExtraLines(f)
    ensures |Applicable(rules, f)| == |RuleLines(rules, f).value|
    ensures var app := Applicable(rules, f);
            forall k :: 0 <= k < |app| ==>
              Resolve(f, app[k].path).Some? && RuleLine(app[k], Resolve(f, app[k].path).value) == Ok(lines[5 + k])
  {
    var nested := RuleLines(rules, f).value;
    var app := Applicable(rules, f);
    RuleLinesShape(rules, f, nested);
    forall k | 0 <= k < |app|
      ensures lines[5 + k] == nested[k]
    {
      IndexAfterPrefix(fixed, nested, ExtraLines(f), k);
    }
  }

  /** The extra lines come last, after the fixed and the conditional lines. */
  lemma ExtraLayout(fixed: seq<string>, nested: seq<string>, f: seq<(string, Json)>, lines: seq<string>)
    requires |fixed| == 5 && lines == fixed + nested + ExtraLines(f)
    ensures |lines| == 5 + |nested| + |LeftoverIndices(f)|
    ensures forall k :: 0 <= k < |LeftoverIndices(f)| ==>
              lines[5 + |nested| + k] == ExtraLine(f[LeftoverIndices(f)[k]])
  {
    var extra := ExtraLines(f);
    ExtraLinesIndexed(f);
    forall k | 0 <= k < |extra|
      ensures lines[5 + |nested| + k] == extra[k]
    {
      IndexAfterTwo(fixed, nested, extra, k);
    }
  }

  lemma IndexAfterPrefix<T>(a: seq<T>, b: seq<T>, c: seq<T>, k: nat)
    requires k < |b|
    ensures (a + b + c)[|a| + k] == b[k]
  {
  }

  lemma IndexAfterTwo<T>(a: seq<T>, b: seq<T>, c: seq<T>, k: nat)
    requires k < |c|
    ensures (a + b + c)[|a| + |b| + k] == c[k]
  {
  }

  /** Formatting fails only on an object record; anything else gets the fixed complaint. */
  lemma DeviceDetailsNonObject(device: Json)
    ensures !device.JObj? ==> DeviceDetails(device) == Ok(Incorrect)
    ensures DeviceDetails(device).Raised? ==> device.JObj? && DeviceLines(NestedRules, device.fields).Raised?
  {
  }

  /** A record whose keys are all handled gets no extra lines, and one with an unhandled key gets at least one. */
  lemma {:induction false} NoExtraLinesIff(f: seq<(string, Json)>)
    ensures ExtraLines(f) == [] <==> forall j :: 0 <= j < |f| ==> f[j].0 in HandledKeys
  {
    if |f| > 0 {
      var n := |f| - 1;
      assert forall j :: 0 <= j < n ==> f[..n][j] == f[j];
      NoExtraLinesIff(f[..n]);
    }
  }
}
