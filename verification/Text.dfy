/** The string functions of Go's `strings` package that the modelled code relies on (ASCII). */
module Text {

  predicate IsSpace(c: char) {
    c == ' ' || c == '\t' || c == '\n' || c == '\r' || c == '\U{b}' || c == '\U{c}'
  }

  function FirstInk(s: string, from: nat): (n: nat)
    requires from <= |s|
    ensures from <= n <= |s|
    ensures n < |s| ==> !IsSpace(s[n])
    decreases |s| - from
  {
    if from < |s| && IsSpace(s[from]) then FirstInk(s, from + 1) else from
  }

  /** The end of the text in s[from..to] without the white space behind it. */
  function InkEnd(s: string, from: nat, to: nat): (n: nat)
    requires from <= to <= |s|
    ensures from <= n <= to
    ensures from < n ==> !IsSpace(s[n - 1])
  {
    if from < to && IsSpace(s[to - 1]) then InkEnd(s, from, to - 1) else to
  }

  function TrimSpace(s: string): (r: string)
    ensures r != "" ==> !IsSpace(r[0]) && !IsSpace(r[|r| - 1])
    ensures s != "" && !IsSpace(s[0]) && !IsSpace(s[|s| - 1]) ==> r == s
  {
    var from := FirstInk(s, 0);
    s[from..InkEnd(s, from, |s|)]
  }

  /** The end of the text in s[..to] without the `c`s behind it. */
  function CutEnd(s: string, c: char, to: nat): (n: nat)
    requires to <= |s|
    ensures n <= to
    ensures n != 0 ==> s[n - 1] != c
  {
    if to != 0 && s[to - 1] == c then CutEnd(s, c, to - 1) else to
  }

  function TrimRight(s: string, c: char): (r: string)
    ensures |r| <= |s|
    ensures r != "" ==> r[|r| - 1] != c
  {
    s[..CutEnd(s, c, |s|)]
  }

  function LowerChar(c: char): char {
    if 'A' <= c <= 'Z' then c - 'A' + 'a' else c
  }

  function UpperChar(c: char): char {
    if 'a' <= c <= 'z' then c - 'a' + 'A' else c
  }

  function ToLower(s: string): (r: string)
    ensures |r| == |s|
    ensures forall i | 0 <= i < |s| :: r[i] == LowerChar(s[i])
  {
    if s == "" then "" else [LowerChar(s[0])] + ToLower(s[1..])
  }

  function Join(parts: seq<string>, sep: string): string {
    if parts == [] then ""
    else if |parts| == 1 then parts[0]
    else parts[0] + sep + Join(parts[1..], sep)
  }

  /** Where `c` first occurs, or the length. */
  function IndexOf(s: string, c: char): (n: nat)
    ensures n <= |s|
    ensures n < |s| ==> s[n] == c
    ensures c !in s[..n]
  {
    if s == "" || s[0] == c then 0 else
      var n := IndexOf(s[1..], c) + 1;
      assert s[..n] == [s[0]] + s[1..][..n - 1];
      n
  }

  lemma {:induction false} IndexAfter(a: string, c: char, b: string)
    requires c !in a
    requires b != "" ==> b[0] == c
    ensures IndexOf(a + b, c) == |a|
  {
    if a == "" {
      assert a + b == b;
    } else {
      assert (a + b)[1..] == a[1..] + b;
      IndexAfter(a[1..], c, b);
    }
  }

  predicate Contains(s: string, part: string) {
    exists i | 0 <= i <= |s| :: StartsAt(s, i, part)
  }

  predicate StartsAt(s: string, i: nat, part: string)
    requires i <= |s|
  {
    |part| <= |s| - i && s[i..i + |part|] == part
  }

  predicate HasSuffix(s: string, suffix: string) {
    |suffix| <= |s| && s[|s| - |suffix|..] == suffix
  }

  predicate NoDuplicates(s: seq<string>) {
    forall i, j | 0 <= i < j < |s| :: s[i] != s[j]
  }

  /** What TrimRight cuts off is all `c`, and it cuts off all of it. */
  lemma TrimRightIsExact(s: string, c: char)
    ensures var n := |TrimRight(s, c)|;
            TrimRight(s, c) == s[..n] && (forall i | n <= i < |s| :: s[i] == c) && (n > 0 ==> s[n - 1] != c)
  {
    CutsOnly(s, c, |s|);
  }

  lemma {:induction false} CutsOnly(s: string, c: char, to: nat)
    requires to <= |s|
    ensures forall i | CutEnd(s, c, to) <= i < to :: s[i] == c
  {
    if to != 0 && s[to - 1] == c {
      CutsOnly(s, c, to - 1);
    }
  }

  /** What TrimSpace cuts off on both sides is white space, and it cuts off all of it. */
  lemma TrimSpaceIsExact(s: string)
    ensures exists a, b | 0 <= a <= b <= |s| ::
              && TrimSpace(s) == s[a..b] && (forall i | 0 <= i < a || b <= i < |s| :: IsSpace(s[i]))
              && (a < b ==> !IsSpace(s[a]) && !IsSpace(s[b - 1]))
  {
    var a, b := FirstInk(s, 0), InkEnd(s, FirstInk(s, 0), |s|);
    SkipsOnlySpace(s, 0);
    CutsOnlySpace(s, a, |s|);
    assert TrimSpace(s) == s[a..b] && a <= b;
  }

  lemma {:induction false} SkipsOnlySpace(s: string, from: nat)
    requires from <= |s|
    ensures forall i | from <= i < FirstInk(s, from) :: IsSpace(s[i])
    decreases |s| - from
  {
    if from < |s| && IsSpace(s[from]) {
      SkipsOnlySpace(s, from + 1);
    }
  }

  lemma {:induction false} CutsOnlySpace(s: string, from: nat, to: nat)
    requires from <= to <= |s|
    ensures forall i | InkEnd(s, from, to) <= i < to :: IsSpace(s[i])
  {
    if to > from && IsSpace(s[to - 1]) {
      CutsOnlySpace(s, from, to - 1);
    }
  }

  // ----- strings.FieldsFunc, strings.Fields -----

  function FieldLength(s: string, separates: char -> bool): (n: nat)
    ensures n <= |s|
    ensures s != "" && !separates(s[0]) ==> n > 0
  {
    if s == "" || separates(s[0]) then 0 else 1 + FieldLength(s[1..], separates)
  }

  function FieldsFunc(s: string, separates: char -> bool): seq<string>
    decreases |s|
  {
    if s == "" then []
    else if separates(s[0]) then FieldsFunc(s[1..], separates)
    else
      var n := FieldLength(s, separates);
      [s[..n]] + FieldsFunc(s[n..], separates)
  }

  function Fields(s: string): seq<string> {
    FieldsFunc(s, IsSpace)
  }

  /** s[i..j] is not empty, has no separator, and could not be longer on either side. */
  ghost predicate IsField(s: string, separates: char -> bool, i: nat, j: nat) {
    && i < j <= |s| && (forall k | i <= k < j :: !separates(s[k]))
    && (i > 0 ==> separates(s[i - 1])) && (j < |s| ==> separates(s[j]))
  }

  ghost predicate HasField(s: string, separates: char -> bool, from: nat, w: string) {
    exists i: nat, j: nat :: from <= i && IsField(s, separates, i, j) && s[i..j] == w
  }

  lemma {:induction false} FieldLengthIs(s: string, separates: char -> bool)
    ensures var n := FieldLength(s, separates);
            (forall k | 0 <= k < n :: !separates(s[k])) && (n < |s| ==> separates(s[n]))
  {
    if s != "" && !separates(s[0]) {
      FieldLengthIs(s[1..], separates);
      var n := FieldLength(s, separates);
      assert forall k | 1 <= k < n :: s[k] == s[1..][k - 1];
      assert n < |s| ==> s[n] == s[1..][n - 1];
    }
  }

  lemma LaterFields(s: string, separates: char -> bool, n: nat, w: string)
    requires 0 < n <= |s| && (separates(s[n - 1]) || (n < |s| ==> separates(s[n])))
    ensures HasField(s[n..], separates, 0, w) <==> HasField(s, separates, n, w)
  {
    var t := s[n..];
    if i: nat, j: nat :| IsField(t, separates, i, j) && t[i..j] == w {
      assert IsField(s, separates, i + n, j + n) && s[i + n..j + n] == w;
    }
    if i: nat, j: nat :| n <= i && IsField(s, separates, i, j) && s[i..j] == w {
      assert t[i - n..j - n] == s[i..j];
      assert IsField(t, separates, i - n, j - n);
    }
  }

  /** The fields are exactly the longest parts without a separator. */
  lemma {:induction false} FieldsAreTheParts(s: string, separates: char -> bool, w: string)
    ensures w in FieldsFunc(s, separates) <==> HasField(s, separates, 0, w)
    decreases |s|
  {
    if s != "" && separates(s[0]) {
      FieldsAreTheParts(s[1..], separates, w);
      LaterFields(s, separates, 1, w);
    } else if s != "" {
      var n := FieldLength(s, separates);
      FieldLengthIs(s, separates);
      FieldsAreTheParts(s[n..], separates, w);
      LaterFields(s, separates, n, w);
      assert IsField(s, separates, 0, n) && s[0..n] == s[..n];
      assert forall i: nat, j: nat | IsField(s, separates, i, j) :: i > n || (i == 0 && j == n);
    }
  }

  predicate IsWord(s: string) {
    s != "" && forall c | c in s :: !IsSpace(c)
  }

  lemma {:induction false} WordLengthOf(w: string, rest: string)
    requires forall c | c in w :: !IsSpace(c)
    requires rest != "" ==> IsSpace(rest[0])
    ensures FieldLength(w + rest, IsSpace) == |w|
  {
    if w == "" {
      assert w + rest == rest;
    } else {
      assert (w + rest)[1..] == w[1..] + rest;
      WordLengthOf(w[1..], rest);
    }
  }

  lemma FieldsOfWord(w: string, rest: string)
    requires IsWord(w)
    requires rest != "" ==> IsSpace(rest[0])
    ensures Fields(w + rest) == [w] + Fields(rest)
  {
    WordLengthOf(w, rest);
    assert (w + rest)[..|w|] == w && (w + rest)[|w|..] == rest;
  }

  lemma FieldsAfterSpace(s: string)
    ensures Fields(" " + s) == Fields(s)
  {
    assert (" " + s)[1..] == s;
  }

  lemma {:induction false} FieldsOfJoin(words: seq<string>)
    requires forall w | w in words :: IsWord(w)
    ensures Fields(Join(words, " ")) == words
  {
    if words != [] {
      hide IsWord, Fields;
      assert words == [words[0]] + words[1..];
      if |words| == 1 {
        assert words[0] + "" == words[0];
        FieldsOfWord(words[0], "");
        FieldsOfJoin([]);
      } else {
        var rest := Join(words[1..], " ");
        assert Join(words, " ") == words[0] + (" " + rest);
        FieldsOfWord(words[0], " " + rest);
        FieldsAfterSpace(rest);
        FieldsOfJoin(words[1..]);
      }
    }
  }
}
