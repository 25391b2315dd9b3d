/**
 * `escape_markdown` (app/netbox_client.py:19-24): a backslash is put before
 * every character of the fixed set that Telegram's MarkdownV2 formatting
 * reserves; every other character, the backslash included, is kept.
 */
module Markdown {
  import opened Json
  import opened PyStrings

  /** The escape set, in the order the source lists it. */
  const EscapeChars: string := "_*[]()~`>#+-=|{}.!"

  predicate IsReserved(c: char) {
    c in EscapeChars
  }

  /** `escape_markdown(text)` for a `str` argument. */
  function Escape(s: string): string {
    if |s| == 0 then ""
    else (if IsReserved(s[0]) then ['\\', s[0]] else [s[0]]) + Escape(s[1..])
  }

  /** The number of characters of `s` that belong to the escape set. */
  function CountReserved(s: string): nat {
    if |s| == 0 then 0 else (if IsReserved(s[0]) then 1 else 0) + CountReserved(s[1..])
  }

  /** Escaping adds exactly one character per reserved character. */
  lemma {:induction false} EscapeLength(s: string)
    ensures |Escape(s)| == |s| + CountReserved(s)
  {
    if |s| > 0 {
      EscapeLength(s[1..]);
    }
  }

  /** Escaping works character by character, so it distributes over concatenation. */
  lemma {:induction false} EscapeAppend(a: string, b: string)
    ensures Escape(a + b) == Escape(a) + Escape(b)
  {
    if |a| == 0 {
      assert a + b == b;
    } else {
      assert (a + b)[0] == a[0];
      assert (a + b)[1..] == a[1..] + b;
      EscapeAppend(a[1..], b);
    }
  }

  /** Escaping changes a string exactly when it holds a reserved character. */
  lemma {:induction false} EscapeIdentityIff(s: string)
    ensures Escape(s) == s <==> (forall i :: 0 <= i < |s| ==> !IsReserved(s[i]))
  {
    EscapeLength(s);
    NoReservedCount(s);
  }

  lemma {:induction false} NoReservedCount(s: string)
    ensures CountReserved(s) == 0 <==> (forall i :: 0 <= i < |s| ==> !IsReserved(s[i]))
    ensures CountReserved(s) == 0 ==> Escape(s) == s
  {
    if |s| > 0 {
      NoReservedCount(s[1..]);
      assert forall i :: 1 <= i < |s| ==> s[i] == s[1..][i - 1];
      if CountReserved(s) == 0 {
        assert [s[0]] + s[1..] == s;
      }
    }
  }

  /** An escaped string never begins with a reserved character: each one is preceded by its backslash. */
  lemma EscapeHead(s: string)
    ensures |Escape(s)| > 0 ==> !IsReserved(Escape(s)[0])
  {
  }

  /**
   * The left-to-right decoder: a backslash followed by a reserved character
   * stands for that character; any other character stands for itself.
   */
  function Unescape(t: string): string
    decreases |t|
  {
    if |t| == 0 then ""
    else if t[0] == '\\' && |t| >= 2 && IsReserved(t[1]) then [t[1]] + Unescape(t[2..])
    else [t[0]] + Unescape(t[1..])
  }

  /** Decoding recovers the original string. */
  lemma {:induction false} UnescapeEscape(s: string)
    ensures Unescape(Escape(s)) == s
  {
    if |s| > 0 {
      var rest := Escape(s[1..]);
      UnescapeEscape(s[1..]);
      EscapeHead(s[1..]);
      if IsReserved(s[0]) {
        var t := ['\\', s[0]] + rest;
        assert t[2..] == rest;
      } else {
        var t := [s[0]] + rest;
        assert t[1..] == rest;
      }
      assert [s[0]] + s[1..] == s;
    }
  }

  /** Distinct strings have distinct escapes. */
  lemma EscapeInjective(a: string, b: string)
    ensures Escape(a) == Escape(b) ==> a == b
  {
    UnescapeEscape(a);
    UnescapeEscape(b);
  }

  /**
   * Markup-safe text: read left to right, every reserved character is the
   * second half of a backslash pair.
   */
  predicate Safe(t: string)
    decreases |t|
  {
    if |t| == 0 then true
    else if t[0] == '\\' && |t| >= 2 && IsReserved(t[1]) then Safe(t[2..])
    else !IsReserved(t[0]) && Safe(t[1..])
  }

  /** Everything `escape_markdown` produces is safe. */
  lemma {:induction false} EscapeIsSafe(s: string)
    ensures Safe(Escape(s))
  {
    if |s| > 0 {
      var rest := Escape(s[1..]);
      EscapeIsSafe(s[1..]);
      if IsReserved(s[0]) {
        var t := ['\\', s[0]] + rest;
        assert t[2..] == rest;
      } else {
        var t := [s[0]] + rest;
        assert t[1..] == rest;
      }
    }
  }

  /** Every safe text is the escape of its decoding: safe texts are exactly the range of the escaper. */
  lemma {:induction false} SafeIsEscaped(t: string)
    requires Safe(t)
    ensures Escape(Unescape(t)) == t
    decreases |t|
  {
    if |t| > 0 {
      if t[0] == '\\' && |t| >= 2 && IsReserved(t[1]) {
        SafeIsEscaped(t[2..]);
        assert Unescape(t) == [t[1]] + Unescape(t[2..]);
        assert ([t[1]] + Unescape(t[2..]))[1..] == Unescape(t[2..]);
        assert t == ['\\', t[1]] + t[2..];
      } else {
        SafeIsEscaped(t[1..]);
        assert Unescape(t) == [t[0]] + Unescape(t[1..]);
        assert ([t[0]] + Unescape(t[1..]))[1..] == Unescape(t[1..]);
        assert t == [t[0]] + t[1..];
      }
    }
  }

  /** Escaping is not idempotent: a second pass keeps the first pass's backslash and escapes the dot once more. */
  lemma EscapeNotIdempotent()
    ensures Escape(".") == "\\."
    ensures Escape(Escape(".")) == "\\\\."
    ensures Escape(Escape(".")) != Escape(".")
  {
    assert IsReserved('.');
    assert !IsReserved('\\');
    assert Escape(".") == ['\\', '.'] + Escape("");
    assert Escape("\\.") == ['\\'] + Escape(".");
  }

  /**
   * `escape_markdown(value)` for a value of any JSON type. The generator walks
   * the value: a string yields its characters, a list its elements, a dict its
   * keys. Each element must be a string (`x in str` demands one) and is
   * escaped when it occurs as a substring of the escape set; walking a number,
   * a boolean or None raises TypeError.
   */
  function EscapeValue(v: Json): Outcome<string> {
    match v
    case JStr(s) => Ok(Escape(s))
    case JArr(items) => EscapeElements(items)
    case JObj(fields) => EscapeElements(seq(|fields|, i requires 0 <= i < |fields| => JStr(fields[i].0)))
    case _ => Raised(TypeError)
  }

  function EscapeElements(items: seq<Json>): Outcome<string> {
    if |items| == 0 then Ok("")
    else if !items[0].JStr? then Raised(TypeError)
    else
      var c := items[0].s;
      var rest :- EscapeElements(items[1..]);
      Ok((if IsSubstring(c, EscapeChars) then "\\" + c else c) + rest)
  }

  lemma {:induction false} EscapeElementsOk(items: seq<Json>)
    ensures EscapeElements(items).Ok? <==> forall i :: 0 <= i < |items| ==> items[i].JStr?
  {
    if |items| > 0 {
      EscapeElementsOk(items[1..]);
      assert forall i :: 1 <= i < |items| ==> items[i] == items[1..][i - 1];
    }
  }

  /**
   * Escaping a field value fails exactly for the values Python cannot walk as
   * strings: None, booleans, numbers and lists holding a non-string.
   */
  lemma EscapeValueOk(v: Json)
    ensures EscapeValue(v).Ok? <==>
            v.JStr? || v.JObj? || (v.JArr? && forall i :: 0 <= i < |v.items| ==> v.items[i].JStr?)
    ensures v.JStr? ==> EscapeValue(v) == Ok(Escape(v.s))
  {
    match v
    case JArr(items) => EscapeElementsOk(items);
    case JObj(fields) =>
      EscapeElementsOk(seq(|fields|, i requires 0 <= i < |fields| => JStr(fields[i].0)));
    case _ =>
  }

  /** Walking a list of one-character strings escapes exactly like walking the string they spell. */
  lemma {:induction false} EscapeCharList(s: string)
    ensures EscapeElements(seq(|s|, i requires 0 <= i < |s| => JStr([s[i]]))) == Ok(Escape(s))
  {
    var items := seq(|s|, i requires 0 <= i < |s| => JStr([s[i]]));
    if |s| > 0 {
      var tail := seq(|s[1..]|, i requires 0 <= i < |s[1..]| => JStr([s[1..][i]]));
      assert items[1..] == tail;
      EscapeCharList(s[1..]);
      SingleCharSubstring(s[0], EscapeChars);
      assert items[0] == JStr([s[0]]);
      var piece := if IsSubstring([s[0]], EscapeChars) then "\\" + [s[0]] else [s[0]];
      assert piece == if IsReserved(s[0]) then ['\\', s[0]] else [s[0]];
      assert EscapeElements(items) == Ok(piece + Escape(s[1..]));
    }
  }
}
