/** String primitives the clause analyzers are built from: Python's `in`
    on strings, `any(...)` over a keyword list, ASCII `str.lower` and
    `str.strip`, the few regular expressions of the risk catalog (each an
    alternation of `a.*b.*c` chains), and the decimal rendering of a count. */
module Text {

  /** `t` occurs in `s` starting at index `i`. */
  predicate OccursAt(s: string, t: string, i: int)
  {
    0 <= i && i + |t| <= |s| && s[i..i + |t|] == t
  }

  /** Python's `t in s`, scanning `s` from the left. */
  function Contains(s: string, t: string): bool
    decreases |s|
  {
    if |s| < |t| then false
    else if s[..|t|] == t then true
    else Contains(s[1..], t)
  }

  /** The scan finds `t` exactly when `t` occurs somewhere in `s`. */
  lemma {:induction false} ContainsIff(s: string, t: string)
    ensures Contains(s, t) <==> exists i :: OccursAt(s, t, i)
    decreases |s|
  {
    if |s| < |t| {
    } else if s[..|t|] == t {
      assert OccursAt(s, t, 0);
    } else {
      ContainsIff(s[1..], t);
      if Contains(s, t) {
        var i :| OccursAt(s[1..], t, i);
        assert s[1..][i..i + |t|] == s[i + 1..i + 1 + |t|];
        assert OccursAt(s, t, i + 1);
      }
      if exists i :: OccursAt(s, t, i) {
        var i :| OccursAt(s, t, i);
        assert i != 0;
        assert s[1..][i - 1..i - 1 + |t|] == s[i..i + |t|];
        assert OccursAt(s[1..], t, i - 1);
      }
    }
  }

  /** Python's `any(t in s for t in ts)`. */
  predicate ContainsAny(s: string, ts: seq<string>)
  {
    exists k :: 0 <= k < |ts| && Contains(s, ts[k])
  }

  // ---------------------------------------------------------------------
  // Regular expressions of the risk catalog

  /** The regex `c0.*c1.*...`: the literals occur in order. Every literal of
      the catalog is free of line breaks. */
  type Chain = seq<string>

  /** The regex `r0|r1|...`, each alternative a chain. */
  type Pattern = seq<Chain>

  /** No line break in `s[lo..hi]`: Python's `.` matches any character but `\n`. */
  predicate SameLine(s: string, lo: int, hi: int)
    requires 0 <= lo <= hi <= |s|
  {
    forall k :: lo <= k < hi ==> s[k] != '\n'
  }

  /** The chain `c` matches `s` with its first literal at index `i`. */
  predicate ChainAt(s: string, c: Chain, i: int)
    decreases |c|
  {
    if |c| == 0 then 0 <= i <= |s|
    else
      OccursAt(s, c[0], i) &&
      (|c| == 1 ||
       exists j :: i + |c[0]| <= j <= |s| && SameLine(s, i + |c[0]|, j) && ChainAt(s, c[1..], j))
  }

  /** `re.search` of one chain: it matches somewhere in `s`. */
  predicate Matches(s: string, c: Chain)
  {
    exists i :: 0 <= i <= |s| && ChainAt(s, c, i)
  }

  /** `re.search` of an alternation: some alternative matches. */
  predicate Search(s: string, p: Pattern)
  {
    exists k :: 0 <= k < |p| && Matches(s, p[k])
  }

  /** A one-literal chain is plain substring search. */
  lemma MatchesLiteral(s: string, t: string)
    ensures Matches(s, [t]) <==> Contains(s, t)
  {
    ContainsIff(s, t);
    if Contains(s, t) {
      var i :| OccursAt(s, t, i);
      assert ChainAt(s, [t], i);
    }
    if Matches(s, [t]) {
      var i :| 0 <= i <= |s| && ChainAt(s, [t], i);
      assert OccursAt(s, t, i);
    }
  }

  // ---------------------------------------------------------------------
  // Case and whitespace (ASCII)

  /** ASCII `str.lower` of one character. */
  function LowerChar(c: char): char
  {
    if 'A' <= c <= 'Z' then (c as int + 32) as char else c
  }

  /** ASCII `str.lower`: every character lower-cased, nothing else changed. */
  function Lower(s: string): (r: string)
    ensures |r| == |s|
    ensures forall i :: 0 <= i < |s| ==> r[i] == LowerChar(s[i])
  {
    if s == [] then [] else [LowerChar(s[0])] + Lower(s[1..])
  }

  /** Python's `str.isspace` on the ASCII range: tab, line feed, vertical
      tab, form feed, carriage return, the four separators 0x1C-0x1F, space. */
  predicate IsSpace(c: char)
  {
    c == ' ' || '\t' <= c <= '\r' || '\U{1C}' <= c <= '\U{1F}'
  }

  /** `str.lstrip()`: drops the leading whitespace and nothing more. */
  function TrimStart(s: string): (r: string)
    ensures |r| <= |s| && r == s[|s| - |r|..]
    ensures forall i :: 0 <= i < |s| - |r| ==> IsSpace(s[i])
    ensures r == [] || !IsSpace(r[0])
  {
    if s != [] && IsSpace(s[0]) then TrimStart(s[1..]) else s
  }

  /** `str.rstrip()`: drops the trailing whitespace and nothing more. */
  function TrimEnd(s: string): (r: string)
    ensures |r| <= |s| && r == s[..|r|]
    ensures forall i :: |r| <= i < |s| ==> IsSpace(s[i])
    ensures r == [] || !IsSpace(r[|r| - 1])
  {
    if s != [] && IsSpace(s[|s| - 1]) then TrimEnd(s[..|s| - 1]) else s
  }

  /** `str.strip()`. */
  function Strip(s: string): string
  {
    TrimEnd(TrimStart(s))
  }

  /** The guard `not clause_text or not clause_text.strip()`. */
  predicate IsBlank(s: string)
  {
    |s| == 0 || |Strip(s)| == 0
  }

  /** Blank means every character is whitespace. */
  lemma BlankIff(s: string)
    ensures IsBlank(s) <==> forall i :: 0 <= i < |s| ==> IsSpace(s[i])
  {
  }

  /** The message both analyzers return for a blank clause. */
  const EmptyClauseError := "Please provide a clause to analyze"

  // ---------------------------------------------------------------------
  // Numbers in messages

  function Digit(d: nat): (c: char)
    requires d < 10
    ensures '0' <= c <= '9'
  {
    (d + '0' as int) as char
  }

  /** The number a string of decimal digits denotes, read left to right. */
  function DigitsValue(s: string): int
  {
    if s == [] then 0 else DigitsValue(s[..|s| - 1]) * 10 + (s[|s| - 1] as int - '0' as int)
  }

  /** Python's `str(n)` for a non-negative integer: the decimal digits of
      `n`, with no leading zero. */
  function NatToString(n: nat): (r: string)
    ensures 1 <= |r|
    ensures forall i :: 0 <= i < |r| ==> '0' <= r[i] <= '9'
    ensures |r| > 1 ==> r[0] != '0'
    ensures DigitsValue(r) == n
  {
    if n < 10 then [Digit(n)]
    else
      var r := NatToString(n / 10) + [Digit(n % 10)];
      assert r[..|r| - 1] == NatToString(n / 10);
      r
  }
}
