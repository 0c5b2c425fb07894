/** The few Python string operations the handlers rely on: `str.strip()`,
    `str.split()` with no separator, `" ".join(...)`, `str.startswith`,
    `str.split(":", 1)` and integer formatting inside f-strings. */
module Text {
  import opened Values

  /** Python's whitespace for `strip()`/`split()`, restricted to ASCII:
      space, tab, line feed, vertical tab, form feed, carriage return and the
      four separator controls 0x1C..0x1F. */
  predicate IsSpace(c: char) {
    c == ' ' || (9 <= c as int <= 13) || (28 <= c as int <= 31)
  }

  predicate StartsWith(s: string, prefix: string) {
    |prefix| <= |s| && s[..|prefix|] == prefix
  }

  /** `s.lstrip()`: drops leading whitespace only. */
  function TrimStart(s: string): (r: string)
    ensures |r| <= |s| && r == s[|s| - |r|..]
    ensures forall i :: 0 <= i < |s| - |r| ==> IsSpace(s[i])
    ensures r == [] || !IsSpace(r[0])
  {
    if s != [] && IsSpace(s[0]) then TrimStart(s[1..]) else s
  }

  /** `s.rstrip()`: drops trailing whitespace only. */
  function TrimEnd(s: string): (r: string)
    ensures |r| <= |s| && r == s[..|r|]
    ensures forall i :: |r| <= i < |s| ==> IsSpace(s[i])
    ensures r == [] || !IsSpace(r[|r| - 1])
  {
    if s != [] && IsSpace(s[|s| - 1]) then TrimEnd(s[..|s| - 1]) else s
  }

  /** `s.strip()`: the result neither starts nor ends with whitespace, is
      empty exactly when `s` is all whitespace, and is the slice of `s` left
      once its leading and trailing whitespace are cut. */
  function Strip(s: string): (r: string)
    ensures |r| <= |s|
    ensures r == [] || (!IsSpace(r[0]) && !IsSpace(r[|r| - 1]))
    ensures r == [] <==> forall i :: 0 <= i < |s| ==> IsSpace(s[i])
    ensures Trims(s, r, |s| - |TrimStart(s)|)
  {
    StripEmpty(s);
    StripSlice(s);
    TrimEnd(TrimStart(s))
  }

  /** `r` is `s[lead..lead + |r|]` and everything of `s` outside that slice
      is whitespace. */
  predicate Trims(s: string, r: string, lead: nat) {
    lead + |r| <= |s| && r == s[lead..lead + |r|] &&
    (forall k :: 0 <= k < lead ==> IsSpace(s[k])) &&
    (forall k :: lead + |r| <= k < |s| ==> IsSpace(s[k]))
  }

  /** What `strip()` drops is whitespace on either side of the slice it
      keeps. */
  lemma StripSlice(s: string)
    ensures Trims(s, TrimEnd(TrimStart(s)), |s| - |TrimStart(s)|)
  {
    var left := TrimStart(s);
    var lead, r := |s| - |left|, TrimEnd(left);
    KeptSlice(s, lead, left, r);
    assert forall k :: 0 <= k < lead ==> IsSpace(s[k]);
    assert Trims(s, r, lead);
  }

  /** A prefix `r` of the suffix `s[lead..]`, followed there only by
      whitespace, is a slice of `s` followed only by whitespace. */
  lemma KeptSlice(s: string, lead: nat, left: string, r: string)
    requires lead <= |s| && left == s[lead..]
    requires |r| <= |left| && r == left[..|r|]
    requires forall i :: |r| <= i < |left| ==> IsSpace(left[i])
    ensures lead + |r| <= |s| && r == s[lead..lead + |r|]
    ensures forall k :: lead + |r| <= k < |s| ==> IsSpace(s[k])
  {
    forall k | lead + |r| <= k < |s| ensures IsSpace(s[k]) {
      assert s[k] == left[k - lead];
    }
  }

  lemma StripEmpty(s: string)
    ensures TrimEnd(TrimStart(s)) == [] <==> forall i :: 0 <= i < |s| ==> IsSpace(s[i])
  {
    var left := TrimStart(s);
    var r := TrimEnd(left);
    if r == [] {
      assert left == [];
    } else {
      assert r[0] == s[|s| - |left|];
    }
  }

  /** A string that neither starts nor ends with whitespace is its own
      `strip()`. */
  lemma StripFixed(s: string)
    requires s == [] || (!IsSpace(s[0]) && !IsSpace(s[|s| - 1]))
    ensures Strip(s) == s
  {
  }

  /** Length of the run of non-whitespace characters that starts `s`. */
  function WordEnd(s: string): (n: nat)
    ensures n <= |s|
    ensures forall i :: 0 <= i < n ==> !IsSpace(s[i])
    ensures n < |s| ==> IsSpace(s[n])
  {
    if s == [] || IsSpace(s[0]) then 0 else 1 + WordEnd(s[1..])
  }

  /** A non-empty string without whitespace: what `str.split()` yields. */
  predicate IsWord(w: string) {
    w != [] && forall i :: 0 <= i < |w| ==> !IsSpace(w[i])
  }

  /** `s.split()`: the maximal whitespace-free runs of `s`, in order. It is
      empty exactly when `s` is all whitespace; `SplitWordsSplits` shows it
      is the split `Splits` describes. */
  function SplitWords(s: string): (ws: seq<string>)
    ensures forall k :: 0 <= k < |ws| ==> IsWord(ws[k])
    ensures ws == [] <==> forall i :: 0 <= i < |s| ==> IsSpace(s[i])
    decreases |s|
  {
    if s == [] then []
    else if IsSpace(s[0]) then
      assert forall i :: 1 <= i < |s| ==> s[i] == s[1..][i - 1];
      SplitWords(s[1..])
    else
      var n := WordEnd(s);
      [s[..n]] + SplitWords(s[n..])
  }

  /** `ws` splits `s`: once leading whitespace is skipped, the first word
      starts the rest, runs up to whitespace or the end, and the remaining
      words split what follows; no words are left for a blank string. */
  predicate Splits(s: string, ws: seq<string>)
    decreases |ws|
  {
    var t := TrimStart(s);
    if ws == [] then t == []
    else
      IsWord(ws[0]) && StartsWith(t, ws[0]) &&
      (|ws[0]| == |t| || IsSpace(t[|ws[0]|])) &&
      Splits(t[|ws[0]|..], ws[1..])
  }

  /** `SplitWords` computes the split. */
  lemma {:induction false} SplitWordsSplits(s: string)
    ensures Splits(s, SplitWords(s))
    decreases |s|
  {
    if s == [] {
    } else if IsSpace(s[0]) {
      SplitWordsSplits(s[1..]);
      assert TrimStart(s) == TrimStart(s[1..]);
    } else {
      var n := WordEnd(s);
      SplitWordsSplits(s[n..]);
      assert TrimStart(s) == s;
      assert SplitWords(s) == [s[..n]] + SplitWords(s[n..]);
    }
  }

  /** A word at the start of `t` that runs up to whitespace or the end of
      `t` is the run `WordEnd` measures. */
  lemma FirstWordEnd(t: string, w: string)
    requires IsWord(w) && StartsWith(t, w)
    requires |w| == |t| || IsSpace(t[|w|])
    ensures WordEnd(t) == |w|
  {
    assert t == w + t[|w|..];
    WordEndOfWord(w, t[|w|..]);
  }

  /** A string has only one split, so `SplitWords` is the only function
      meeting `Splits`. */
  lemma {:induction false} SplitsUnique(s: string, ws1: seq<string>, ws2: seq<string>)
    requires Splits(s, ws1) && Splits(s, ws2)
    ensures ws1 == ws2
    decreases |ws1|
  {
    var t := TrimStart(s);
    if t == [] {
      SplitOfBlank(s, ws1);
      SplitOfBlank(s, ws2);
    } else {
      var w1 := SplitHead(s, ws1);
      var w2 := SplitHead(s, ws2);
      assert w1 == t[..|w1|] == w2 by {
        FirstWordEnd(t, w1);
        FirstWordEnd(t, w2);
      }
      SplitsUnique(t[|w1|..], ws1[1..], ws2[1..]);
      SameHeadSameTail(ws1, ws2);
    }
  }

  /** Two non-empty sequences with equal heads and tails are equal. */
  lemma SameHeadSameTail(ws1: seq<string>, ws2: seq<string>)
    requires ws1 != [] && ws2 != [] && ws1[0] == ws2[0] && ws1[1..] == ws2[1..]
    ensures ws1 == ws2
  {
    assert ws1 == [ws1[0]] + ws1[1..];
    assert ws2 == [ws2[0]] + ws2[1..];
  }

  /** A blank string splits into no words. */
  lemma SplitOfBlank(s: string, ws: seq<string>)
    requires Splits(s, ws) && TrimStart(s) == []
    ensures ws == []
  {
  }

  /** The first word of a split of a non-blank string, and what the rest of
      the split covers. */
  lemma SplitHead(s: string, ws: seq<string>) returns (w: string)
    requires Splits(s, ws) && TrimStart(s) != []
    ensures ws != [] && w == ws[0]
    ensures IsWord(w) && StartsWith(TrimStart(s), w)
    ensures |w| == |TrimStart(s)| || IsSpace(TrimStart(s)[|w|])
    ensures Splits(TrimStart(s)[|w|..], ws[1..])
  {
    w := ws[0];
  }

  /** `sep.join(ws)`. */
  function Join(ws: seq<string>, sep: string): string {
    if ws == [] then ""
    else if |ws| == 1 then ws[0]
    else ws[0] + sep + Join(ws[1..], sep)
  }

  /** A word followed by nothing or by whitespace ends where the word ends. */
  lemma {:induction false} WordEndOfWord(w: string, rest: string)
    requires IsWord(w)
    requires rest == [] || IsSpace(rest[0])
    ensures WordEnd(w + rest) == |w|
  {
    assert (w + rest)[0] == w[0];
    assert (w + rest)[1..] == w[1..] + rest;
    if |w| == 1 {
      assert w[1..] + rest == rest;
    } else {
      WordEndOfWord(w[1..], rest);
    }
  }

  /** Joining words with single spaces and splitting again gives the words
      back: `" ".join(ws).split() == ws`. */
  lemma {:induction false} SplitJoin(ws: seq<string>)
    requires forall k :: 0 <= k < |ws| ==> IsWord(ws[k])
    ensures SplitWords(Join(ws, " ")) == ws
  {
    if ws == [] {
    } else if |ws| == 1 {
      var w := ws[0];
      WordEndOfWord(w, "");
      assert w + "" == w;
      assert w[..|w|] == w && w[|w|..] == [];
    } else {
      var w, rest := ws[0], Join(ws[1..], " ");
      var s := w + " " + rest;
      assert s == w + (" " + rest);
      WordEndOfWord(w, " " + rest);
      assert s[..|w|] == w;
      assert s[|w|..] == " " + rest;
      assert (" " + rest)[1..] == rest;
      assert SplitWords(" " + rest) == SplitWords(rest);
      assert SplitWords(s) == [w] + SplitWords(rest);
      SplitJoin(ws[1..]);
      assert ws == [w] + ws[1..];
    }
  }

  /** Re-joining the words of a prompt with single spaces is idempotent:
      a prompt that has gone through `" ".join(p.split())` once is unchanged
      by a second pass. */
  lemma CollapseIdempotent(p: string)
    ensures Join(SplitWords(Join(SplitWords(p), " ")), " ") == Join(SplitWords(p), " ")
  {
    SplitJoin(SplitWords(p));
  }

  /** `s.split(c, 1)[1]` when `c` occurs in `s`: everything after the first
      `c`; `None` when `c` does not occur (Python raises `IndexError`). */
  function AfterFirst(s: string, c: char): (r: Option<string>)
    ensures r.None? <==> c !in s
    ensures r.Some? ==> |r.value| < |s| && r.value == s[|s| - |r.value|..]
    ensures r.Some? ==> s[|s| - |r.value| - 1] == c && c !in s[..|s| - |r.value| - 1]
  {
    if s == [] then None
    else if s[0] == c then Some(s[1..])
    else
      var r := AfterFirst(s[1..], c);
      assert c in s <==> c in s[1..];
      if r.Some? then
        assert s[..|s| - |r.value| - 1] == [s[0]] + s[1..][..|s[1..]| - |r.value| - 1];
        r
      else r
  }

  /** A tag without `c`, then `c`, then a payload: the payload is what
      follows the first `c`, whatever it contains. */
  lemma {:induction false} AfterFirstOfTag(tag: string, c: char, payload: string)
    requires c !in tag
    ensures AfterFirst(tag + [c] + payload, c) == Some(payload)
  {
    var s := tag + [c] + payload;
    if tag == [] {
      assert s == [c] + payload;
    } else {
      assert s[0] == tag[0];
      assert s[1..] == tag[1..] + [c] + payload;
      AfterFirstOfTag(tag[1..], c, payload);
    }
  }

  function Digit(d: nat): char
    requires d < 10
  {
    "0123456789"[d]
  }

  /** Decimal digits of `n`, most significant first, as f-strings print it. */
  function NatToString(n: nat): (s: string)
    ensures s != []
    ensures forall i :: 0 <= i < |s| ==> '0' <= s[i] <= '9'
  {
    if n < 10 then [Digit(n)] else NatToString(n / 10) + [Digit(n % 10)]
  }

  /** `str(i)` for an integer: a minus sign for negatives, then the digits. */
  function IntToString(i: int): string {
    if i < 0 then "-" + NatToString(-i) else NatToString(i)
  }

  lemma DigitInjective(a: nat, b: nat)
    requires a < 10 && b < 10 && Digit(a) == Digit(b)
    ensures a == b
  {
  }

  /** The decimal form of a number of two or more digits is the form of
      its leading part followed by its last digit. */
  lemma NatToStringLast(n: nat)
    requires n >= 10
    ensures |NatToString(n)| >= 2
    ensures NatToString(n)[..|NatToString(n)| - 1] == NatToString(n / 10)
    ensures NatToString(n)[|NatToString(n)| - 1] == Digit(n % 10)
  {
  }

  /** Different numbers print differently. */
  lemma {:induction false} NatToStringInjective(a: nat, b: nat)
    requires NatToString(a) == NatToString(b)
    ensures a == b
  {
    if a < 10 && b < 10 {
      DigitInjective(a, b);
    } else if a >= 10 && b >= 10 {
      NatToStringLast(a);
      NatToStringLast(b);
      NatToStringInjective(a / 10, b / 10);
      DigitInjective(a % 10, b % 10);
    } else if a < 10 {
      NatToStringLast(b);
    } else {
      NatToStringLast(a);
    }
  }

  /** `str(i)` is injective on integers. */
  lemma IntToStringInjective(a: int, b: int)
    requires IntToString(a) == IntToString(b)
    ensures a == b
  {
    assert IntToString(a)[0] == '-' <==> a < 0;
    assert IntToString(b)[0] == '-' <==> b < 0;
    if a < 0 && b < 0 {
      assert NatToString(-a) == IntToString(a)[1..];
      assert NatToString(-b) == IntToString(b)[1..];
      NatToStringInjective(-a, -b);
    } else if a >= 0 && b >= 0 {
      NatToStringInjective(a, b);
    }
  }
}
