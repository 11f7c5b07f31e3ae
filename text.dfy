/**
  The string operations the ticket notes need: JavaScript's
  `String.prototype.trim` and the blank-line-separated note history.
*/
module Text {

  /** The WhiteSpace and LineTerminator code points that `trim` removes. */
  predicate IsWhitespace(c: char)
  {
    var n := c as int;
    || n == 0x09 || n == 0x0A || n == 0x0B || n == 0x0C || n == 0x0D || n == 0x20
    || n == 0xA0 || n == 0x1680 || (0x2000 <= n <= 0x200A) || n == 0x2028 || n == 0x2029
    || n == 0x202F || n == 0x205F || n == 0x3000 || n == 0xFEFF
  }

  predicate AllWhitespace(s: string)
  {
    forall i :: 0 <= i < |s| ==> IsWhitespace(s[i])
  }

  function TrimStart(s: string): (r: string)
    ensures r == [] || !IsWhitespace(r[0])
    ensures |r| <= |s| && r == s[|s| - |r|..]
    ensures AllWhitespace(s[..|s| - |r|])
  {
    if s == [] || !IsWhitespace(s[0]) then s
    else
      var r := TrimStart(s[1..]);
      assert s[..|s| - |r|] == [s[0]] + s[1..][..|s| - 1 - |r|];
      r
  }

  function TrimEnd(s: string): (r: string)
    ensures r == [] || !IsWhitespace(r[|r| - 1])
    ensures r <= s
    ensures AllWhitespace(s[|r|..])
  {
    if s == [] || !IsWhitespace(s[|s| - 1]) then s
    else
      var r := TrimEnd(s[..|s| - 1]);
      assert s[|r|..] == s[..|s| - 1][|r|..] + [s[|s| - 1]];
      r
  }

  /**
    `s.trim()`: the longest slice of `s` that neither starts nor ends with
    whitespace, everything cut off on either side being whitespace.
  */
  function Trim(s: string): (r: string)
    ensures r == [] || (!IsWhitespace(r[0]) && !IsWhitespace(r[|r| - 1]))
    ensures |r| <= |s|
  {
    TrimEnd(TrimStart(s))
  }

  /** What `trim` cuts off on either side is whitespace, and what it keeps is a slice of `s`. */
  lemma TrimIsSlice(s: string) returns (i: nat, j: nat)
    ensures i <= j <= |s| && Trim(s) == s[i..j]
    ensures AllWhitespace(s[..i]) && AllWhitespace(s[j..])
  {
    var t := TrimStart(s);
    var r := TrimEnd(t);
    i := |s| - |t|;
    j := i + |r|;
    TrimSlice(s, t, r, i, j);
  }

  lemma TrimSlice(s: string, t: string, r: string, i: nat, j: nat)
    requires |t| <= |s| && t == s[|s| - |t|..] && AllWhitespace(s[..|s| - |t|])
    requires r <= t && AllWhitespace(t[|r|..])
    requires i == |s| - |t| && j == i + |r|
    ensures j <= |s| && r == s[i..j] && AllWhitespace(s[..i]) && AllWhitespace(s[j..])
  {
    assert s[j..] == t[|r|..];
  }

  /** `s.trim() !== ""` holds exactly when `s` has a character that is not whitespace. */
  lemma TrimEmptyIffBlank(s: string)
    ensures Trim(s) == "" <==> AllWhitespace(s)
  {
    var t := TrimStart(s);
    if t == [] {
      assert s[..|s|] == s;
    } else {
      assert t[0] == s[|s| - |t|];
      TrimEndKeepsNonBlank(t);
    }
  }

  lemma TrimEndKeepsNonBlank(t: string)
    requires t != [] && !IsWhitespace(t[0])
    ensures TrimEnd(t) != []
  {
  }

  const Separator: string := "\n\n"

  /** The note history as stored: entries, newest first, separated by a blank line. */
  function JoinNotes(entries: seq<string>): string
  {
    if entries == [] then ""
    else if |entries| == 1 then entries[0]
    else entries[0] + Separator + JoinNotes(entries[1..])
  }

  /**
    The history after a new entry: the entry alone when the history is
    empty, else the entry, a blank line, and the old history intact.
  */
  function Prepend(entry: string, history: string): (r: string)
    ensures |r| >= |entry| && r[..|entry|] == entry
    ensures history == "" ==> r == entry
    ensures history != "" ==> |r| == |entry| + 2 + |history| && r[|r| - |history|..] == history
    ensures history != "" ==> r[|entry|..|entry| + 2] == Separator
  {
    if history != "" then entry + Separator + history else entry
  }

  /** The old history is always the tail of the new one. */
  lemma PrependKeepsHistory(entry: string, history: string)
    ensures var r := Prepend(entry, history);
      |r| >= |history| && r[|r| - |history|..] == history
  {
    var r := Prepend(entry, history);
    if history == "" {
      assert r[|r|..] == "";
    }
  }

  /**
    Prepending keeps the stored history equal to the joined list of its
    entries, newest first, as long as no entry is empty.
  */
  lemma {:induction false} PrependIsJoin(entry: string, entries: seq<string>)
    requires entry != "" && forall e :: e in entries ==> e != ""
    ensures Prepend(entry, JoinNotes(entries)) == JoinNotes([entry] + entries)
  {
    assert ([entry] + entries)[1..] == entries;
    if entries != [] {
      JoinNonEmpty(entries);
    }
  }

  lemma {:induction false} JoinNonEmpty(entries: seq<string>)
    requires entries != [] && forall e :: e in entries ==> e != ""
    ensures JoinNotes(entries) != ""
    ensures |JoinNotes(entries)| >= |entries[0]|
  {
    assert entries[0] in entries;
    if |entries| > 1 {
      assert entries[0] != "";
    }
  }
}
