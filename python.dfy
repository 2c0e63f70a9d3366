/**
 * The parts of Python's `str` and of its JSON values that the backend relies on,
 * written out so that the backend modules can be stated in Python's own terms.
 */
module Python {

  /** The characters for which `str.isspace()` holds. */
  predicate IsSpace(c: char) {
    || c == ' '
    || ('\t' <= c <= '\r')
    || ('\U{1c}' <= c <= '\U{1f}')
    || c == '\U{85}' || c == '\U{a0}' || c == '\U{1680}'
    || ('\U{2000}' <= c <= '\U{200a}')
    || c == '\U{2028}' || c == '\U{2029}' || c == '\U{202f}' || c == '\U{205f}' || c == '\U{3000}'
  }

  /** No character of `s` is whitespace. */
  predicate NoSpace(s: string) {
    forall i :: 0 <= i < |s| ==> !IsSpace(s[i])
  }

  /** A value produced by `json.loads` (objects become dicts, numbers become `PyNum`). */
  datatype PyValue =
    | PyNone
    | PyBool(b: bool)
    | PyNum(n: real)
    | PyStr(s: string)
    | PyList(items: seq<PyValue>)
    | PyDict(entries: map<string, PyValue>)

  type Dict = map<string, PyValue>

  // ---------------------------------------------------------------------------
  // strip, find, rfind, slicing

  /** `s.lstrip()`: drops the leading whitespace and nothing else. */
  function StripLeft(s: string): (r: string)
    ensures |r| <= |s| && r == s[|s| - |r|..]
    ensures forall k :: 0 <= k < |s| - |r| ==> IsSpace(s[k])
    ensures r == [] || !IsSpace(r[0])
  {
    if s != [] && IsSpace(s[0]) then
      StripLeft(s[1..])
    else s
  }

  /** `s.rstrip()`: drops the trailing whitespace and nothing else. */
  function StripRight(s: string): (r: string)
    ensures |r| <= |s| && r == s[..|r|]
    ensures forall k :: |r| <= k < |s| ==> IsSpace(s[k])
    ensures r == [] || !IsSpace(r[|r| - 1])
  {
    if s != [] && IsSpace(s[|s| - 1]) then
      StripRight(s[..|s| - 1])
    else s
  }

  /** `s.strip()`: drops the whitespace at both ends, so it neither starts nor ends with any. */
  function Strip(s: string): (r: string)
    ensures |r| <= |s|
    ensures r == [] || (!IsSpace(r[0]) && !IsSpace(r[|r| - 1]))
  {
    StripRight(StripLeft(s))
  }

  /** What `Strip` keeps is a slice of `s` with only whitespace on either side of it. */
  lemma StripKeepsMiddle(s: string)
    ensures exists i, j :: && 0 <= i <= j <= |s| && Strip(s) == s[i..j]
                           && (forall k :: 0 <= k < i ==> IsSpace(s[k]))
                           && (forall k :: j <= k < |s| ==> IsSpace(s[k]))
  {
    var left := StripLeft(s);
    var i := |s| - |left|;
    var r := StripRight(left);
    assert r == s[i..i + |r|];
    forall k | i + |r| <= k < |s| ensures IsSpace(s[k]) {
      assert s[k] == left[k - i];
    }
  }

  /** `s.find(c)`: the index of the first `c`, or -1 when there is none. */
  function Find(s: string, c: char): (i: int)
    ensures -1 <= i < |s|
    ensures i == -1 <==> c !in s
    ensures 0 <= i ==> s[i] == c && c !in s[..i]
  {
    if s == [] then -1
    else if s[0] == c then 0
    else
      var k := Find(s[1..], c);
      assert s[1..] + [] == s[1..];
      if k == -1 then -1
      else
        assert s[..k + 1] == [s[0]] + s[1..][..k];
        k + 1
  }

  /** `s.rfind(c)`: the index of the last `c`, or -1 when there is none. */
  function RFind(s: string, c: char): (i: int)
    ensures -1 <= i < |s|
    ensures i == -1 <==> c !in s
    ensures 0 <= i ==> s[i] == c && c !in s[i + 1..]
  {
    if s == [] then -1
    else if s[|s| - 1] == c then |s| - 1
    else
      var k := RFind(s[..|s| - 1], c);
      assert s == s[..|s| - 1] + [s[|s| - 1]];
      if k == -1 then -1
      else
        assert s[k + 1..] == s[..|s| - 1][k + 1..] + [s[|s| - 1]];
        k
  }

  /** `s[i:j]` for indices within the string: empty when `j <= i`. */
  function Slice(s: string, i: nat, j: nat): (r: string)
    requires i <= |s| && j <= |s|
    ensures i < j ==> r == s[i..j]
    ensures j <= i ==> r == []
  {
    if i < j then s[i..j] else []
  }

  /** `s[:n]`. */
  function Prefix(s: string, n: nat): (r: string)
    ensures |r| == if |s| <= n then |s| else n
    ensures r == s[..|r|]
  {
    if |s| <= n then s else s[..n]
  }

  /** `s.lower()` on ASCII letters (other characters are kept as they are). */
  function LowerChar(c: char): char {
    if 'A' <= c <= 'Z' then (c as int + 32) as char else c
  }

  function Lower(s: string): (r: string)
    ensures |r| == |s|
    ensures forall i :: 0 <= i < |s| ==> r[i] == LowerChar(s[i])
  {
    if s == [] then [] else [LowerChar(s[0])] + Lower(s[1..])
  }

  // ---------------------------------------------------------------------------
  // ' '.join(s.split())

  /** The run of non-whitespace characters that `s` starts with. */
  function TakeWord(s: string): (w: string)
    ensures |w| <= |s| && w == s[..|w|]
    ensures NoSpace(w)
    ensures |w| < |s| ==> IsSpace(s[|w|])
    ensures s != [] && !IsSpace(s[0]) ==> w != []
  {
    if s == [] || IsSpace(s[0]) then [] else [s[0]] + TakeWord(s[1..])
  }

  /** `s.split()`: the maximal runs of non-whitespace characters, in order. */
  function SplitWhitespace(s: string): (ws: seq<string>)
    ensures forall k :: 0 <= k < |ws| ==> ws[k] != [] && NoSpace(ws[k])
    decreases |s|
  {
    if s == [] then []
    else if IsSpace(s[0]) then SplitWhitespace(s[1..])
    else
      var w := TakeWord(s);
      [w] + SplitWhitespace(s[|w|..])
  }

  /** `' '.join(ws)`: the words with one space between each two of them. */
  function JoinWithSpace(ws: seq<string>): (r: string)
    ensures ws == [] ==> r == []
    ensures (forall k :: 0 <= k < |ws| ==> ws[k] != [] && NoSpace(ws[k])) ==> SingleSpaced(r) && (r == [] <==> ws == [])
  {
    if ws == [] then []
    else if |ws| == 1 then ws[0]
    else
      var rest := JoinWithSpace(ws[1..]);
      var r := ws[0] + " " + rest;
      assert forall i :: |ws[0]| < i < |r| ==> r[i] == rest[i - |ws[0]| - 1];
      r
  }

  /** Whitespace only as single spaces, none at either end: what `' '.join(s.split())` leaves. */
  predicate SingleSpaced(s: string) {
    && (forall i :: 0 <= i < |s| ==> s[i] == ' ' || !IsSpace(s[i]))
    && (forall i :: 0 <= i < |s| - 1 && s[i] == ' ' ==> s[i + 1] != ' ')
    && (s != [] ==> s[0] != ' ' && s[|s| - 1] != ' ')
  }

  /** A word followed by nothing or by whitespace is read back as that word. */
  lemma {:induction false} TakeWordOf(w: string, rest: string)
    requires NoSpace(w)
    requires rest == [] || IsSpace(rest[0])
    ensures TakeWord(w + rest) == w
  {
    if w != [] {
      assert (w + rest)[1..] == w[1..] + rest;
      TakeWordOf(w[1..], rest);
    } else {
      assert w + rest == rest;
    }
  }

  /** Splitting what `JoinWithSpace` built gives back the words. */
  lemma {:induction false} SplitOfJoin(ws: seq<string>)
    requires forall k :: 0 <= k < |ws| ==> ws[k] != [] && NoSpace(ws[k])
    ensures SplitWhitespace(JoinWithSpace(ws)) == ws
  {
    if |ws| == 1 {
      TakeWordOf(ws[0], []);
      assert ws[0] + [] == ws[0];
      assert ws[0][|ws[0]|..] == [];
    } else if |ws| > 1 {
      var w, rest := ws[0], JoinWithSpace(ws[1..]);
      var s := w + (" " + rest);
      assert JoinWithSpace(ws) == s;
      TakeWordOf(w, " " + rest);
      assert s[0] == w[0] && s[|w|..] == " " + rest;
      assert SplitWhitespace(s) == [w] + SplitWhitespace(" " + rest);
      assert (" " + rest)[1..] == rest;
      assert SplitWhitespace(" " + rest) == SplitWhitespace(rest);
      SplitOfJoin(ws[1..]);
      assert ws == [w] + ws[1..];
    }
  }

  // ---------------------------------------------------------------------------
  // str.replace

  /** `s.replace(pattern, repl)`: non-overlapping occurrences, left to right. */
  function ReplaceAll(s: string, pattern: string, repl: string): (r: string)
    requires pattern != []
    ensures |repl| <= |pattern| ==> |r| <= |s|
    ensures |repl| == |pattern| ==> |r| == |s|
    decreases |s|
  {
    if |s| < |pattern| then s
    else if s[..|pattern|] == pattern then repl + ReplaceAll(s[|pattern|..], pattern, repl)
    else [s[0]] + ReplaceAll(s[1..], pattern, repl)
  }

  /** Replacing a pattern whose first character never occurs changes nothing. */
  lemma {:induction false} ReplaceAbsent(s: string, pattern: string, repl: string)
    requires pattern != [] && pattern[0] !in s
    ensures ReplaceAll(s, pattern, repl) == s
  {
    if |s| >= |pattern| {
      assert s[..|pattern|][0] == s[0] != pattern[0];
      assert pattern[0] !in s[1..] by { assert forall c :: c in s[1..] ==> c in s; }
      ReplaceAbsent(s[1..], pattern, repl);
      assert s == [s[0]] + s[1..];
    }
  }

  /** `s` with every `c` taken out, the other characters kept in order. */
  function Without(s: string, c: char): (r: string)
    ensures c !in r
    ensures forall x :: x in r ==> x in s
    ensures c !in s ==> r == s
    ensures multiset(r) == multiset(s)[c := 0]
  {
    if s == [] then []
    else
      var rest := Without(s[1..], c);
      assert forall x :: x in s[1..] ==> x in s;
      assert s == [s[0]] + s[1..];
      if s[0] == c then rest
      else [s[0]] + rest
  }

  /** Replacing one character by nothing deletes every occurrence of it and nothing else. */
  lemma {:induction false} ReplaceDeletes(s: string, c: char)
    ensures ReplaceAll(s, [c], []) == Without(s, c)
  {
    if |s| >= 1 {
      ReplaceDeletes(s[1..], c);
      assert s[..1] == [s[0]];
      assert ReplaceAll(s, [c], []) == (if s[0] == c then [] else [s[0]]) + ReplaceAll(s[1..], [c], []);
    }
  }
}
