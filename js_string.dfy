/**
 * The JavaScript string built-ins the key map relies on: `trim`, `toUpperCase`,
 * `toLowerCase`, `split("-")` and `join("-")`.
 *
 * `trim` removes exactly the ECMAScript WhiteSpace and LineTerminator code points.
 * Case mapping is the ASCII one (letters a-z and A-Z only).
 */
module JsString {

  /** The code points `String.prototype.trim` removes (ECMAScript WhiteSpace and LineTerminator). */
  predicate IsWhitespace(c: char) {
    var n := c as int;
    n == 0x09 || n == 0x0A || n == 0x0B || n == 0x0C || n == 0x0D || n == 0x20 || n == 0xA0 ||
    n == 0x1680 || (0x2000 <= n <= 0x200A) || n == 0x2028 || n == 0x2029 || n == 0x202F ||
    n == 0x205F || n == 0x3000 || n == 0xFEFF
  }

  /** Drops the leading whitespace (see `TrimStartSuffix`). */
  function TrimStart(s: string): string
    decreases |s|
  {
    if s != [] && IsWhitespace(s[0]) then TrimStart(s[1..]) else s
  }

  /** Drops the trailing whitespace (see `TrimEndPrefix`). */
  function TrimEnd(s: string): string
    decreases |s|
  {
    if s != [] && IsWhitespace(s[|s| - 1]) then TrimEnd(s[..|s| - 1]) else s
  }

  /** `TrimStart` gives a suffix of its input that does not start with whitespace. */
  lemma {:induction false} TrimStartSuffix(s: string)
    ensures |TrimStart(s)| <= |s| && TrimStart(s) == s[|s| - |TrimStart(s)|..]
    ensures TrimStart(s) == [] || !IsWhitespace(TrimStart(s)[0])
    decreases |s|
  {
    if s != [] && IsWhitespace(s[0]) {
      TrimStartSuffix(s[1..]);
    }
  }

  /** `TrimEnd` gives a prefix of its input that does not end with whitespace. */
  lemma {:induction false} TrimEndPrefix(s: string)
    ensures |TrimEnd(s)| <= |s| && TrimEnd(s) == s[..|TrimEnd(s)|]
    ensures TrimEnd(s) == [] || !IsWhitespace(TrimEnd(s)[|TrimEnd(s)| - 1])
    decreases |s|
  {
    if s != [] && IsWhitespace(s[|s| - 1]) {
      TrimEndPrefix(s[..|s| - 1]);
    }
  }

  /** `s.trim()`: drops leading and trailing whitespace, and leaves a string without either as it is. */
  function Trim(s: string): (r: string)
    ensures r == [] || (!IsWhitespace(r[0]) && !IsWhitespace(r[|r| - 1]))
    ensures (s == [] || (!IsWhitespace(s[0]) && !IsWhitespace(s[|s| - 1]))) ==> r == s
  {
    var t := TrimStart(s);
    TrimStartSuffix(s);
    TrimEndPrefix(t);
    var r := TrimEnd(t);
    assert r != [] ==> r[0] == t[0];
    r
  }

  lemma TrimIdempotent(s: string)
    ensures Trim(Trim(s)) == Trim(s)
  {
  }

  /** `trim` gives "" exactly for an all-whitespace string. */
  lemma TrimBlank(s: string)
    ensures Trim(s) == [] <==> forall i :: 0 <= i < |s| ==> IsWhitespace(s[i])
  {
    var t := TrimStart(s);
    TrimStartSuffix(s);
    TrimEndPrefix(t);
    TrimStartSkips(s);
    TrimEndSkips(t);
    if Trim(s) == [] {
      assert t == [];
    }
  }

  /** What `TrimStart` drops is whitespace. */
  lemma {:induction false} TrimStartSkips(s: string)
    ensures forall i :: 0 <= i < |s| - |TrimStart(s)| ==> IsWhitespace(s[i])
    decreases |s|
  {
    if s != [] && IsWhitespace(s[0]) {
      TrimStartSkips(s[1..]);
      forall i | 1 <= i < |s| - |TrimStart(s)| ensures IsWhitespace(s[i]) {
        assert s[i] == s[1..][i - 1];
      }
    }
  }

  /** What `TrimEnd` drops is whitespace. */
  lemma {:induction false} TrimEndSkips(s: string)
    ensures forall i :: |TrimEnd(s)| <= i < |s| ==> IsWhitespace(s[i])
    decreases |s|
  {
    if s != [] && IsWhitespace(s[|s| - 1]) {
      TrimEndSkips(s[..|s| - 1]);
      forall i | |TrimEnd(s)| <= i < |s| - 1 ensures IsWhitespace(s[i]) {
        assert s[i] == s[..|s| - 1][i];
      }
    }
  }

  /** Every character `trim` keeps comes from its input. */
  lemma TrimKeepsChars(s: string, c: char)
    requires c in Trim(s)
    ensures c in s
  {
    var t := TrimStart(s);
    TrimStartSuffix(s);
    TrimEndPrefix(t);
    var r := Trim(s);
    var k := |s| - |t|;
    var j :| 0 <= j < |r| && r[j] == c;
    assert r[j] == t[j];
    assert t[j] == s[k + j];
  }

  function UpperChar(c: char): char {
    if 'a' <= c <= 'z' then (c as int - 32) as char else c
  }

  function LowerChar(c: char): char {
    if 'A' <= c <= 'Z' then (c as int + 32) as char else c
  }

  /** Applies `f` to every character of `s`. */
  function MapChars(f: char -> char, s: string): (r: string)
    ensures |r| == |s| && forall i :: 0 <= i < |s| ==> r[i] == f(s[i])
    decreases |s|
  {
    if s == [] then [] else [f(s[0])] + MapChars(f, s[1..])
  }

  /** `s.toUpperCase()` over ASCII. */
  function Upper(s: string): string {
    MapChars(UpperChar, s)
  }

  /** `s.toLowerCase()` over ASCII. */
  function Lower(s: string): string {
    MapChars(LowerChar, s)
  }

  /** `f` maps whitespace to whitespace, and nothing else to whitespace. */
  ghost predicate KeepsWhitespace(f: char -> char) {
    forall c :: IsWhitespace(f(c)) <==> IsWhitespace(c)
  }

  /** `f` maps '-' to '-', and nothing else to '-'. */
  ghost predicate KeepsDash(f: char -> char) {
    forall c :: f(c) == '-' <==> c == '-'
  }

  lemma CaseMapsKeepWhitespaceAndDash()
    ensures KeepsWhitespace(UpperChar) && KeepsWhitespace(LowerChar)
    ensures KeepsDash(UpperChar) && KeepsDash(LowerChar)
  {
  }

  lemma CaseFolding(s: string)
    ensures Lower(Upper(s)) == Lower(s) && Lower(Lower(s)) == Lower(s)
    ensures Upper(Lower(s)) == Upper(s) && Upper(Upper(s)) == Upper(s)
  {
  }

  /** `s.split("-")`: the maximal runs between the dashes, always at least one (possibly empty) token. */
  function Split(s: string): (r: seq<string>)
    ensures |r| >= 1
    ensures forall i :: 0 <= i < |r| ==> '-' !in r[i]
    decreases |s|
  {
    if s == [] then [[]]
    else
      var rest := Split(s[1..]);
      if s[0] == '-' then [[]] + rest else [[s[0]] + rest[0]] + rest[1..]
  }

  /** `tokens.join("-")`. */
  function Join(tokens: seq<string>): string
    decreases |tokens|
  {
    if tokens == [] then []
    else if |tokens| == 1 then tokens[0]
    else tokens[0] + "-" + Join(tokens[1..])
  }

  lemma {:induction false} SplitOfDashFree(t: string)
    requires '-' !in t
    ensures Split(t) == [t]
    decreases |t|
  {
    if t != [] {
      SplitOfDashFree(t[1..]);
      assert [t[0]] + t[1..] == t;
    }
  }

  lemma {:induction false} SplitAtFirstDash(t: string, rest: string)
    requires '-' !in t
    ensures Split(t + "-" + rest) == [t] + Split(rest)
    decreases |t|
  {
    var s := t + "-" + rest;
    if t == [] {
      assert s == "-" + rest && s[1..] == rest;
    } else {
      assert s[1..] == t[1..] + "-" + rest;
      SplitAtFirstDash(t[1..], rest);
      assert [t[0]] + t[1..] == t;
    }
  }

  /** Splitting undoes joining, for tokens that hold no dash. */
  lemma {:induction false} SplitJoin(tokens: seq<string>)
    requires |tokens| >= 1
    requires forall i :: 0 <= i < |tokens| ==> '-' !in tokens[i]
    ensures Split(Join(tokens)) == tokens
    decreases |tokens|
  {
    if |tokens| == 1 {
      SplitOfDashFree(tokens[0]);
    } else {
      SplitJoin(tokens[1..]);
      SplitAtFirstDash(tokens[0], Join(tokens[1..]));
      assert [tokens[0]] + tokens[1..] == tokens;
    }
  }

  /** A trailing "-" token joins like two trailing empty tokens. */
  lemma {:induction false} JoinTrailingDash(tokens: seq<string>)
    ensures Join(tokens + ["-"]) == Join(tokens + ["", ""])
    decreases |tokens|
  {
    if tokens == [] {
      assert Join(["", ""]) == "" + "-" + Join([""]);
    } else {
      assert (tokens + ["-"])[1..] == tokens[1..] + ["-"];
      assert (tokens + ["", ""])[1..] == tokens[1..] + ["", ""];
      JoinTrailingDash(tokens[1..]);
    }
  }

  /** Joining undoes splitting. */
  lemma {:induction false} JoinSplit(s: string)
    ensures Join(Split(s)) == s
    decreases |s|
  {
    if s != [] {
      JoinSplit(s[1..]);
      var rest := Split(s[1..]);
      if s[0] == '-' {
        assert Split(s) == [[]] + rest;
      } else {
        var ts := Split(s);
        assert ts[0] == [s[0]] + rest[0] && ts[1..] == rest[1..];
        if |rest| == 1 {
          assert s == [s[0]] + s[1..];
        } else {
          assert Join(rest) == rest[0] + "-" + Join(rest[1..]);
          assert s == [s[0]] + s[1..];
        }
      }
    }
  }

  /** Applies `f` to every character of every token. */
  function MapTokens(f: char -> char, ts: seq<string>): seq<string> {
    seq(|ts|, i requires 0 <= i < |ts| => MapChars(f, ts[i]))
  }

  lemma {:induction false} TrimStartMap(f: char -> char, s: string)
    requires KeepsWhitespace(f)
    ensures TrimStart(MapChars(f, s)) == MapChars(f, TrimStart(s))
    decreases |s|
  {
    var m := MapChars(f, s);
    if s != [] && IsWhitespace(s[0]) {
      assert IsWhitespace(m[0]);
      assert m[1..] == MapChars(f, s[1..]);
      TrimStartMap(f, s[1..]);
    } else if s != [] {
      assert !IsWhitespace(m[0]);
    }
  }

  lemma {:induction false} TrimEndMap(f: char -> char, s: string)
    requires KeepsWhitespace(f)
    ensures TrimEnd(MapChars(f, s)) == MapChars(f, TrimEnd(s))
    decreases |s|
  {
    var m := MapChars(f, s);
    if s != [] && IsWhitespace(s[|s| - 1]) {
      assert IsWhitespace(m[|m| - 1]);
      assert m[..|m| - 1] == MapChars(f, s[..|s| - 1]);
      TrimEndMap(f, s[..|s| - 1]);
    } else if s != [] {
      assert !IsWhitespace(m[|m| - 1]);
    }
  }

  /** A character map that keeps whitespace commutes with `trim`. */
  lemma TrimMap(f: char -> char, s: string)
    requires KeepsWhitespace(f)
    ensures Trim(MapChars(f, s)) == MapChars(f, Trim(s))
  {
    TrimStartMap(f, s);
    TrimEndMap(f, TrimStart(s));
  }

  lemma MapTokensCons(f: char -> char, t: string, ts: seq<string>)
    ensures MapTokens(f, [t] + ts) == [MapChars(f, t)] + MapTokens(f, ts)
  {
  }

  /** A character map that keeps dashes commutes with `split("-")`. */
  lemma {:induction false} SplitMap(f: char -> char, s: string)
    requires KeepsDash(f)
    ensures Split(MapChars(f, s)) == MapTokens(f, Split(s))
    decreases |s|
  {
    var m := MapChars(f, s);
    if s != [] {
      assert m[1..] == MapChars(f, s[1..]);
      SplitMap(f, s[1..]);
      var rest := Split(s[1..]);
      if s[0] == '-' {
        assert m[0] == '-';
        MapTokensCons(f, [], rest);
      } else {
        var mrest := MapTokens(f, rest);
        assert m[0] != '-';
        assert Split(m) == [[m[0]] + mrest[0]] + mrest[1..];
        assert MapChars(f, [s[0]] + rest[0]) == [m[0]] + mrest[0];
        assert rest == [rest[0]] + rest[1..];
        MapTokensCons(f, [s[0]] + rest[0], rest[1..]);
        MapTokensCons(f, rest[0], rest[1..]);
      }
    }
  }
}
