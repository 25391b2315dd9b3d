/**
 * The Python string operations the bot relies on: `str.split(sep, 1)`,
 * `str.startswith`, substring `in`, `str.replace`, ASCII `str.capitalize`,
 * `"\n".join` and `str(value)` on decoded JSON values.
 */
module PyStrings {
  import opened Json

  /** `s.startswith(prefix)`. */
  predicate StartsWith(s: string, prefix: string) {
    |prefix| <= |s| && s[..|prefix|] == prefix
  }

  /** `sub in s` for two strings: `sub` occurs contiguously in `s` (the empty string always does). */
  predicate IsSubstring(sub: string, s: string)
    decreases |s|
  {
    StartsWith(s, sub) || (|s| > 0 && IsSubstring(sub, s[1..]))
  }

  lemma {:induction false} SingleCharSubstring(c: char, s: string)
    ensures IsSubstring([c], s) <==> c in s
    decreases |s|
  {
    if |s| > 0 {
      SingleCharSubstring(c, s[1..]);
      assert s == [s[0]] + s[1..];
    }
  }

  /**
   * `s.split(sep, 1)`: the text before the first `sep`, and the text after it
   * when `sep` occurs at all.
   */
  function SplitOnce(s: string, sep: char): (r: (string, Option<string>))
    ensures r.1.None? ==> r.0 == s && sep !in s
    ensures r.1.Some? ==> s == r.0 + [sep] + r.1.value && sep !in r.0
  {
    if |s| == 0 then ("", None)
    else if s[0] == sep then ("", Some(s[1..]))
    else
      var (head, tail) := SplitOnce(s[1..], sep);
      assert s == [s[0]] + s[1..];
      ([s[0]] + head, tail)
  }

  /** A split is determined by its parts: splitting `head + [sep] + tail` recovers them when `head` has no `sep`. */
  lemma {:induction false} SplitOnceOfJoin(head: string, sep: char, tail: string)
    requires sep !in head
    ensures SplitOnce(head + [sep] + tail, sep) == (head, Some(tail))
  {
    if |head| > 0 {
      var s := head + [sep] + tail;
      assert s[0] == head[0] && s[0] != sep;
      assert s[1..] == head[1..] + [sep] + tail;
      assert sep !in head[1..] by { assert forall c :: c in head[1..] ==> c in head; }
      SplitOnceOfJoin(head[1..], sep, tail);
      assert [head[0]] + head[1..] == head;
    } else {
      assert head + [sep] + tail == [sep] + tail;
    }
  }

  /**
   * `s.replace(pat, rep)` for a non-empty `pat`: every non-overlapping
   * occurrence of `pat`, scanning left to right, is replaced by `rep`.
   */
  function ReplaceAll(s: string, pat: string, rep: string): string
    requires |pat| > 0
    decreases |s|
  {
    if |s| == 0 then ""
    else if StartsWith(s, pat) then rep + ReplaceAll(s[|pat|..], pat, rep)
    else [s[0]] + ReplaceAll(s[1..], pat, rep)
  }

  /** Replacing a pattern whose first character does not occur in `s` changes nothing. */
  lemma {:induction false} ReplaceAbsent(s: string, pat: string, rep: string)
    requires |pat| > 0 && pat[0] !in s
    ensures ReplaceAll(s, pat, rep) == s
    decreases |s|
  {
    if |s| > 0 {
      assert s[0] in s;
      assert !StartsWith(s, pat);
      assert forall c :: c in s[1..] ==> c in s;
      ReplaceAbsent(s[1..], pat, rep);
    }
  }

  /** Every character `from` replaced by `to`, all others kept. */
  function MapChar(s: string, from: char, to: char): string
  {
    seq(|s|, i requires 0 <= i < |s| => if s[i] == from then to else s[i])
  }

  /** `s.replace(a, b)` with one-character arguments is a character map. */
  lemma {:induction false} ReplaceSingleChar(s: string, from: char, to: char)
    ensures ReplaceAll(s, [from], [to]) == MapChar(s, from, to)
    decreases |s|
  {
    if |s| > 0 {
      ReplaceSingleChar(s[1..], from, to);
      var c := if s[0] == from then to else s[0];
      if s[0] == from {
        assert StartsWith(s, [from]);
        assert s[|[from]|..] == s[1..];
      } else {
        assert s[..1] == [s[0]];
        assert !StartsWith(s, [from]);
      }
      assert ReplaceAll(s, [from], [to]) == [c] + ReplaceAll(s[1..], [from], [to]);
      var m := MapChar(s[1..], from, to);
      forall i | 0 <= i < |s|
        ensures MapChar(s, from, to)[i] == ([c] + m)[i]
      {
        if i > 0 {
          assert s[i] == s[1..][i - 1];
        }
      }
    }
  }

  /** Concatenation is associative. */
  lemma AppendAssociative<T>(a: seq<T>, b: seq<T>, c: seq<T>)
    ensures (a + b) + c == a + (b + c)
  {
  }

  function ToUpperAscii(c: char): char {
    if 'a' <= c <= 'z' then (c as int - 32) as char else c
  }

  function ToLowerAscii(c: char): char {
    if 'A' <= c <= 'Z' then (c as int + 32) as char else c
  }

  /** `s.capitalize()` restricted to ASCII letters: first character upper-cased, the rest lower-cased. */
  function Capitalize(s: string): string
  {
    if |s| == 0 then ""
    else [ToUpperAscii(s[0])] + seq(|s| - 1, i requires 0 <= i < |s| - 1 => ToLowerAscii(s[i + 1]))
  }

  lemma CapitalizeIdempotent(s: string)
    ensures Capitalize(Capitalize(s)) == Capitalize(s)
  {
  }

  /** `"\n".join(lines)`. */
  function JoinLines(lines: seq<string>): string {
    if |lines| == 0 then ""
    else if |lines| == 1 then lines[0]
    else lines[0] + "\n" + JoinLines(lines[1..])
  }

  function DigitChar(d: nat): char
    requires d < 10
  {
    "0123456789"[d]
  }

  function NatToDecimal(n: nat): string
    decreases n
  {
    if n < 10 then [DigitChar(n)] else NatToDecimal(n / 10) + [DigitChar(n % 10)]
  }

  /** `str(n)` for an int. */
  function IntToDecimal(n: int): string {
    if n < 0 then "-" + NatToDecimal(-n) else NatToDecimal(n)
  }

  /** `", ".join(parts)`. */
  function JoinComma(parts: seq<string>): string {
    if |parts| == 0 then ""
    else if |parts| == 1 then parts[0]
    else parts[0] + ", " + JoinComma(parts[1..])
  }

  /** `repr(value)` of a decoded JSON value, with strings always in single quotes. */
  function PyRepr(v: Json): string {
    match v
    case JNull => "None"
    case JBool(b) => if b then "True" else "False"
    case JNum(n) => IntToDecimal(n)
    case JStr(s) => "'" + s + "'"
    case JArr(items) =>
      "[" + JoinComma(seq(|items|, i requires 0 <= i < |items| => PyRepr(items[i]))) + "]"
    case JObj(fields) =>
      "{" + JoinComma(seq(|fields|, i requires 0 <= i < |fields| =>
                            "'" + fields[i].0 + "': " + PyRepr(fields[i].1))) + "}"
  }

  /** `str(value)`: a string is itself, everything else is its repr. */
  function PyStr(v: Json): string
  {
    if v.JStr? then v.s else PyRepr(v)
  }
}
