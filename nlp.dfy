/**
 * The email text cleaner: `clean_text` as the composition of its four passes,
 * each pass a function on strings whose contract says what the pass's regular
 * expression or string method does, plus lemmas about the whole pipeline.
 */
module Nlp {
  import opened Wrappers

  /** The characters for which Python's `str.isspace` holds. `str.strip()` and
      the regular-expression class `\s` (on `str` patterns) both use this set. */
  predicate IsSpace(c: char) {
    ('\t' <= c <= '\r') || ('\U{1C}' <= c <= '\U{1F}') || c == ' '
    || c == '\U{85}' || c == '\U{A0}' || c == '\U{1680}'
    || ('\U{2000}' <= c <= '\U{200A}') || c == '\U{2028}' || c == '\U{2029}'
    || c == '\U{202F}' || c == '\U{205F}' || c == '\U{3000}'
  }

  /** The class `[ \t]` of the third pass. */
  predicate IsHSpace(c: char) {
    c == ' ' || c == '\t'
  }

  /** No two adjacent characters are both spaces or tabs. */
  ghost predicate NoDoubleHSpace(s: string) {
    forall i :: 0 <= i < |s| - 1 ==> !(IsHSpace(s[i]) && IsHSpace(s[i + 1]))
  }

  /** No three adjacent newlines. */
  ghost predicate NoTripleNewline(s: string) {
    forall i :: 0 <= i < |s| - 2 ==> !(s[i] == '\n' && s[i + 1] == '\n' && s[i + 2] == '\n')
  }

  /** No newline followed by two dashes. */
  ghost predicate NoDashLine(s: string) {
    forall i :: 0 <= i < |s| - 2 ==> !(s[i] == '\n' && s[i + 1] == '-' && s[i + 2] == '-')
  }

  // ---------------------------------------------------------------------------
  // Pass 1: `text.replace("\r", " ").strip()`
  // ---------------------------------------------------------------------------

  /** `s.replace("\r", " ")`: every carriage return becomes a space, nothing else moves. */
  function ReplaceCR(s: string): (r: string)
    ensures |r| == |s|
    ensures forall i :: 0 <= i < |s| ==> r[i] == (if s[i] == '\r' then ' ' else s[i])
    ensures '\r' !in r
  {
    if s == [] then [] else [if s[0] == '\r' then ' ' else s[0]] + ReplaceCR(s[1..])
  }

  /** `s.lstrip()`: the suffix left after the leading whitespace. */
  function StripStart(s: string): (r: string)
    ensures |r| <= |s| && r == s[|s| - |r|..]
    ensures forall i :: 0 <= i < |s| - |r| ==> IsSpace(s[i])
    ensures r == [] || !IsSpace(r[0])
  {
    if s != [] && IsSpace(s[0]) then StripStart(s[1..]) else s
  }

  /** `s.rstrip()`: the prefix left before the trailing whitespace. */
  function StripEnd(s: string): (r: string)
    ensures |r| <= |s| && r == s[..|r|]
    ensures forall i :: |r| <= i < |s| ==> IsSpace(s[i])
    ensures r == [] || !IsSpace(r[|r| - 1])
  {
    if s != [] && IsSpace(s[|s| - 1]) then StripEnd(s[..|s| - 1]) else s
  }

  /** `s.strip()`: the infix `s[k..k + |r|]` obtained by removing a block of
      whitespace at each end, and starting and ending with a non-whitespace
      character (or empty). */
  function Strip(s: string): (r: string)
    ensures var k := |s| - |StripStart(s)|;
      k + |r| <= |s| && r == s[k..k + |r|]
      && (forall i :: 0 <= i < k ==> IsSpace(s[i]))
      && (forall i :: k + |r| <= i < |s| ==> IsSpace(s[i]))
    ensures r == [] || (!IsSpace(r[0]) && !IsSpace(r[|r| - 1]))
    ensures forall c :: c in r ==> c in s
  {
    StripEnd(StripStart(s))
  }

  // ---------------------------------------------------------------------------
  // Pass 2: `re.sub(r"(?is)\n--+\s*[\s\S]{0,400}$", "", text)`
  // ---------------------------------------------------------------------------

  /** The `{0,400}` bound of the signature pattern. */
  const MaxSignatureTail: nat := 400

  /** Length of the run of dashes starting at `j`. */
  function DashRun(s: string, j: nat): (n: nat)
    requires j <= |s|
    ensures j + n <= |s|
    ensures forall t :: j <= t < j + n ==> s[t] == '-'
    ensures j + n == |s| || s[j + n] != '-'
    decreases |s| - j
  {
    if j < |s| && s[j] == '-' then 1 + DashRun(s, j + 1) else 0
  }

  /** Length of the run of whitespace starting at `j`. */
  function SpaceRun(s: string, j: nat): (n: nat)
    requires j <= |s|
    ensures j + n <= |s|
    ensures forall t :: j <= t < j + n ==> IsSpace(s[t])
    ensures j + n == |s| || !IsSpace(s[j + n])
    decreases |s| - j
  {
    if j < |s| && IsSpace(s[j]) then 1 + SpaceRun(s, j + 1) else 0
  }

  /** The executable test for a match at `i`: a newline, the maximal run of
      dashes after it (at least two), the maximal whitespace run after those,
      and at most 400 characters left to the end. */
  predicate SignatureAt(s: string, i: nat) {
    i < |s| && s[i] == '\n' &&
    var d := DashRun(s, i + 1);
    d >= 2 && |s| - (i + 1 + d + SpaceRun(s, i + 1 + d)) <= MaxSignatureTail
  }

  ghost predicate DashesBetween(s: string, a: nat, b: nat)
    requires a <= b <= |s|
  {
    forall t :: a <= t < b ==> s[t] == '-'
  }

  ghost predicate SpacesBetween(s: string, a: nat, b: nat)
    requires a <= b <= |s|
  {
    forall t :: a <= t < b ==> IsSpace(s[t])
  }

  /** What a backtracking matcher decides for `\n--+\s*[\s\S]{0,400}$` tried at
      position `i`: a newline, then some split of what follows into two or more
      dashes (ending at `p`), whitespace (ending at `q`) and at most 400
      arbitrary characters reaching the end of the string. */
  ghost predicate RegexMatchesAt(s: string, i: nat) {
    i < |s| && s[i] == '\n' &&
    exists p: nat, q: nat ::
      i + 3 <= p <= q <= |s| && DashesBetween(s, i + 1, p) && SpacesBetween(s, p, q)
      && |s| - q <= MaxSignatureTail
  }

  lemma {:induction false} DashRunCovers(s: string, j: nat, p: nat)
    requires j <= p <= |s| && DashesBetween(s, j, p)
    ensures DashRun(s, j) >= p - j
    decreases p - j
  {
    if j < p {
      DashRunCovers(s, j + 1, p);
    }
  }

  lemma {:induction false} SpaceRunCovers(s: string, j: nat, p: nat)
    requires j <= p <= |s| && SpacesBetween(s, j, p)
    ensures SpaceRun(s, j) >= p - j
    decreases p - j
  {
    if j < p {
      SpaceRunCovers(s, j + 1, p);
    }
  }

  /** Taking the maximal runs loses no match: the executable test agrees with
      the backtracking semantics of the pattern at every position. */
  lemma SignatureAtIff(s: string, i: nat)
    ensures SignatureAt(s, i) <==> RegexMatchesAt(s, i)
  {
    if i < |s| && s[i] == '\n' {
      var d := DashRun(s, i + 1);
      var w := SpaceRun(s, i + 1 + d);
      if SignatureAt(s, i) {
        assert DashesBetween(s, i + 1, i + 1 + d);
        assert SpacesBetween(s, i + 1 + d, i + 1 + d + w);
      }
      if RegexMatchesAt(s, i) {
        var p: nat, q: nat :| i + 3 <= p <= q <= |s| && DashesBetween(s, i + 1, p)
          && SpacesBetween(s, p, q) && |s| - q <= MaxSignatureTail;
        DashRunCovers(s, i + 1, p);
        if d > p - (i + 1) {
          assert s[p] == '-' && !IsSpace(s[p]);
          assert q == p;
        } else {
          SpaceRunCovers(s, p, q);
        }
        assert i + 1 + d + w >= q;
      }
    }
  }

  lemma SignatureAtIffAll(s: string)
    ensures forall i: nat :: SignatureAt(s, i) <==> RegexMatchesAt(s, i)
  {
    forall i: nat ensures SignatureAt(s, i) <==> RegexMatchesAt(s, i) {
      SignatureAtIff(s, i);
    }
  }

  /** The leftmost position at or after `from` where the signature test holds,
      or `|s|` when there is none. */
  function FirstSignature(s: string, from: nat): (r: nat)
    requires from <= |s|
    ensures from <= r <= |s|
    ensures r < |s| ==> SignatureAt(s, r)
    ensures forall j :: from <= j < r ==> !SignatureAt(s, j)
    decreases |s| - from
  {
    if from == |s| then |s|
    else if SignatureAt(s, from) then from
    else FirstSignature(s, from + 1)
  }

  /** Pass 2. The first match runs to the end of the string, so `re.sub` removes
      exactly one suffix: the text is cut at the leftmost position where the
      pattern matches, and kept whole when it matches nowhere. `$` is read as
      the end of the string; Python's `$` also matches before a final newline,
      which the stripped input of this pass never has. */
  function CutSignature(s: string): (r: string)
    ensures |r| <= |s| && r == s[..|r|]
    ensures |r| < |s| ==> RegexMatchesAt(s, |r|)
    ensures forall j :: 0 <= j < |r| ==> !RegexMatchesAt(s, j)
  {
    SignatureAtIffAll(s);
    s[..FirstSignature(s, 0)]
  }

  // ---------------------------------------------------------------------------
  // Pass 3: `re.sub(r"[ \t]+", " ", text)`
  // ---------------------------------------------------------------------------

  /** The suffix left after a leading run of spaces and tabs. */
  function DropHSpace(s: string): (r: string)
    ensures |r| <= |s| && r == s[|s| - |r|..]
    ensures forall i :: 0 <= i < |s| - |r| ==> IsHSpace(s[i])
    ensures r == [] || !IsHSpace(r[0])
  {
    if s != [] && IsHSpace(s[0]) then DropHSpace(s[1..]) else s
  }

  /** `s` with every space and tab removed. */
  ghost function RemoveHSpace(s: string): string {
    if s == [] then [] else (if IsHSpace(s[0]) then [] else [s[0]]) + RemoveHSpace(s[1..])
  }

  /** Pass 3: each maximal run of spaces and tabs becomes one space. */
  function CollapseHSpace(s: string): (r: string)
    ensures |r| <= |s|
    ensures '\t' !in r
    ensures forall c :: c in r ==> c in s || c == ' '
    ensures NoDoubleHSpace(r)
    ensures s != [] ==> r != [] && r[0] == (if IsHSpace(s[0]) then ' ' else s[0])
    decreases |s|
  {
    if s == [] then []
    else if IsHSpace(s[0]) then [' '] + CollapseHSpace(DropHSpace(s[1..]))
    else [s[0]] + CollapseHSpace(s[1..])
  }

  // ---------------------------------------------------------------------------
  // Pass 4: `re.sub(r"\n{3,}", "\n\n", text)`
  // ---------------------------------------------------------------------------

  /** Length of the run of newlines at the start of `s`. */
  function LeadingNewlines(s: string): (n: nat)
    ensures n <= |s|
    ensures forall i :: 0 <= i < n ==> s[i] == '\n'
    ensures n == |s| || s[n] != '\n'
  {
    if s != [] && s[0] == '\n' then 1 + LeadingNewlines(s[1..]) else 0
  }

  /** `s` with every newline removed. */
  ghost function RemoveNewlines(s: string): string {
    if s == [] then [] else (if s[0] == '\n' then [] else [s[0]]) + RemoveNewlines(s[1..])
  }

  /** Pass 4: each run of three or more newlines becomes two. The pass only
      shortens runs of newlines, so it introduces no character and keeps apart
      any two characters that were apart. */
  function CollapseNewlines(s: string): (r: string)
    ensures |r| <= |s|
    ensures forall c :: c in r ==> c in s
    ensures NoTripleNewline(r)
    ensures NoDoubleHSpace(s) ==> NoDoubleHSpace(r)
    ensures s != [] ==> r != [] && r[0] == s[0]
    decreases |s|
  {
    if s == [] then []
    else if s[0] != '\n' then [s[0]] + CollapseNewlines(s[1..])
    else
      var n := LeadingNewlines(s);
      (if n >= 3 then "\n\n" else s[..n]) + CollapseNewlines(s[n..])
  }

  // ---------------------------------------------------------------------------
  // clean_text
  // ---------------------------------------------------------------------------

  /** `clean_text(raw)`: `raw or ""`, then the four passes in order. The result
      is never longer than the input and has no carriage return, no tab, no two
      adjacent spaces or tabs and no three adjacent newlines. */
  function CleanText(raw: Option<string>): (r: string)
    ensures (raw.None? || raw == Some("")) ==> r == ""
    ensures raw.Some? ==> |r| <= |raw.value|
    ensures '\r' !in r && '\t' !in r
    ensures NoDoubleHSpace(r)
    ensures NoTripleNewline(r)
  {
    var text := if raw.Some? then raw.value else "";
    CollapseNewlines(CollapseHSpace(CutSignature(Strip(ReplaceCR(text)))))
  }

  // ---------------------------------------------------------------------------
  // Properties of the passes and of the pipeline
  // ---------------------------------------------------------------------------

  lemma {:induction false} RemoveHSpaceOfDrop(s: string)
    ensures RemoveHSpace(DropHSpace(s)) == RemoveHSpace(s)
  {
    if s != [] && IsHSpace(s[0]) {
      RemoveHSpaceOfDrop(s[1..]);
    }
  }

  /** Pass 3 changes only whitespace: removing spaces and tabs from its input
      and from its output gives the same text. */
  lemma {:induction false} CollapseHSpaceKeepsText(s: string)
    ensures RemoveHSpace(CollapseHSpace(s)) == RemoveHSpace(s)
    decreases |s|
  {
    if s != [] {
      var r := CollapseHSpace(s);
      if IsHSpace(s[0]) {
        var t := DropHSpace(s[1..]);
        CollapseHSpaceKeepsText(t);
        RemoveHSpaceOfDrop(s[1..]);
        assert r == [' '] + CollapseHSpace(t);
        assert r[1..] == CollapseHSpace(t);
      } else {
        CollapseHSpaceKeepsText(s[1..]);
        assert r[1..] == CollapseHSpace(s[1..]);
      }
    }
  }

  /** What pass 3 writes for position `i`, read one character at a time: a
      space or tab that starts a run becomes one space, one inside a run
      becomes nothing, and any other character stays. */
  function HSpaceOut(s: string, i: nat): string
    requires i < |s|
  {
    if !IsHSpace(s[i]) then [s[i]]
    else if i == 0 || !IsHSpace(s[i - 1]) then " "
    else ""
  }

  /** The outputs of positions `i` to the end, concatenated. */
  ghost function HSpaceFrom(s: string, i: nat): string
    requires i <= |s|
    decreases |s| - i
  {
    if i == |s| then [] else HSpaceOut(s, i) + HSpaceFrom(s, i + 1)
  }

  /** Positions inside a run of spaces and tabs write nothing. */
  lemma {:induction false} HSpaceFromSkipsRun(s: string, i: nat, j: nat)
    requires 0 < i <= j <= |s|
    requires forall t :: i - 1 <= t < j ==> IsHSpace(s[t])
    ensures HSpaceFrom(s, i) == HSpaceFrom(s, j)
    decreases j - i
  {
    if i < j {
      HSpaceFromSkipsRun(s, i + 1, j);
    }
  }

  /** Pass 3 and its per-position reading on a suffix that starts with a
      character other than a space or tab. */
  lemma CollapseHSpaceKeep(s: string, i: nat)
    requires i < |s| && !IsHSpace(s[i])
    ensures CollapseHSpace(s[i..]) == [s[i]] + CollapseHSpace(s[i + 1..])
    ensures HSpaceFrom(s, i) == [s[i]] + HSpaceFrom(s, i + 1)
  {
    assert s[i..][1..] == s[i + 1..];
  }

  /** Pass 3 on a suffix that starts with a run of spaces and tabs ending
      before `j`: the run becomes one space. */
  lemma CollapseHSpaceRun(s: string, i: nat) returns (j: nat)
    requires i < |s| && IsHSpace(s[i])
    ensures i < j <= |s| && (j == |s| || !IsHSpace(s[j]))
    ensures forall t :: i <= t < j ==> IsHSpace(s[t])
    ensures CollapseHSpace(s[i..]) == " " + CollapseHSpace(s[j..])
  {
    var u := s[i..];
    assert u[1..] == s[i + 1..];
    var r := DropHSpace(s[i + 1..]);
    j := i + 1 + (|s| - (i + 1) - |r|);
    assert r == s[j..];
    forall t | i + 1 <= t < j ensures IsHSpace(s[t]) {
      assert s[i + 1..][t - (i + 1)] == s[t];
    }
    if j < |s| {
      assert r[0] == s[j];
    }
  }

  /** The per-position reading of a run of spaces and tabs that starts at `i`. */
  lemma HSpaceFromRun(s: string, i: nat, j: nat)
    requires i < j <= |s| && forall t :: i <= t < j ==> IsHSpace(s[t])
    requires i == 0 || !IsHSpace(s[i - 1])
    ensures HSpaceFrom(s, i) == " " + HSpaceFrom(s, j)
  {
    assert HSpaceOut(s, i) == " ";
    HSpaceFromSkipsRun(s, i + 1, j);
  }

  lemma {:induction false} CollapseHSpaceFrom(s: string, i: nat)
    requires i <= |s|
    requires i == |s| || !IsHSpace(s[i]) || i == 0 || !IsHSpace(s[i - 1])
    ensures CollapseHSpace(s[i..]) == HSpaceFrom(s, i)
    decreases |s| - i
  {
    if i == |s| {
      assert s[i..] == [];
    } else if !IsHSpace(s[i]) {
      CollapseHSpaceKeep(s, i);
      CollapseHSpaceFrom(s, i + 1);
    } else {
      var j := CollapseHSpaceRun(s, i);
      HSpaceFromRun(s, i, j);
      CollapseHSpaceFrom(s, j);
    }
  }

  /** Pass 3 is the per-position reading: each space or tab that starts a run
      becomes one space, the rest of the run is dropped, and every other
      character is kept in place. */
  lemma CollapseHSpaceByPosition(s: string)
    ensures CollapseHSpace(s) == HSpaceFrom(s, 0)
  {
    assert s[0..] == s;
    CollapseHSpaceFrom(s, 0);
  }

  /** Pass 4 read one character at a time, `written` being how many newlines
      of the current run have been written so far: a newline is written only
      while fewer than two of its run have been, and any other character is
      written and ends the run. */
  ghost function NewlineFilter(s: string, written: nat): string
    decreases |s|
  {
    if s == [] then []
    else if s[0] != '\n' then [s[0]] + NewlineFilter(s[1..], 0)
    else if written >= 2 then NewlineFilter(s[1..], written)
    else "\n" + NewlineFilter(s[1..], written + 1)
  }

  /** Once two newlines of a run are written, the rest of the run writes nothing. */
  lemma {:induction false} NewlineFilterSkips(s: string, i: nat, n: nat)
    requires i <= n <= |s| && forall k :: i <= k < n ==> s[k] == '\n'
    ensures NewlineFilter(s[i..], 2) == NewlineFilter(s[n..], 2)
    decreases n - i
  {
    if i < n {
      assert s[i..][1..] == s[i + 1..];
      NewlineFilterSkips(s, i + 1, n);
    }
  }

  /** The first two newlines of a run are written. */
  lemma NewlineFilterOfPair(s: string)
    requires 2 <= |s| && s[0] == '\n' && s[1] == '\n'
    ensures NewlineFilter(s, 0) == "\n\n" + NewlineFilter(s[2..], 2)
  {
    var t := s[1..];
    assert t[0] == '\n' && t[1..] == s[2..];
    assert NewlineFilter(s, 0) == "\n" + NewlineFilter(t, 1);
    assert NewlineFilter(t, 1) == "\n" + NewlineFilter(s[2..], 2);
  }

  /** A newline ends the run only at a character other than a newline. */
  lemma NewlineFilterReset(s: string, w: nat)
    requires s == [] || s[0] != '\n'
    ensures NewlineFilter(s, w) == NewlineFilter(s, 0)
  {
  }

  /** A lone newline at the front is written. */
  lemma NewlineFilterOfSingle(s: string)
    requires 1 <= |s| && s[0] == '\n' && (|s| == 1 || s[1] != '\n')
    ensures NewlineFilter(s, 0) == "\n" + NewlineFilter(s[1..], 0)
  {
    assert NewlineFilter(s, 0) == "\n" + NewlineFilter(s[1..], 1);
    NewlineFilterReset(s[1..], 1);
  }

  /** A run of two or more newlines at the front writes two. */
  lemma NewlineFilterOfLongRun(s: string, n: nat)
    requires 2 <= n <= |s| && (forall k :: 0 <= k < n ==> s[k] == '\n')
    requires n == |s| || s[n] != '\n'
    ensures NewlineFilter(s, 0) == "\n\n" + NewlineFilter(s[n..], 0)
  {
    NewlineFilterOfPair(s);
    NewlineFilterSkips(s, 2, n);
    NewlineFilterReset(s[n..], 2);
  }

  /** A whole run of newlines at the front writes two newlines when it has
      three or more, and itself otherwise. */
  lemma NewlineFilterOfRun(s: string, n: nat)
    requires 1 <= n == LeadingNewlines(s)
    ensures NewlineFilter(s, 0) == (if n >= 3 then "\n\n" else s[..n]) + NewlineFilter(s[n..], 0)
  {
    if n == 1 {
      NewlineFilterOfSingle(s);
      assert s[..n] == "\n";
    } else {
      NewlineFilterOfLongRun(s, n);
      if n == 2 {
        assert s[..n] == "\n\n";
      }
    }
  }

  /** Pass 4 agrees with its character-at-a-time reading: the first two
      newlines of every run are kept and any further ones dropped, so a run
      of three or more becomes exactly two, and every other character is kept
      in place. */
  lemma {:induction false} CollapseNewlinesByCharacter(s: string)
    ensures CollapseNewlines(s) == NewlineFilter(s, 0)
    decreases |s|
  {
    if s != [] {
      if s[0] != '\n' {
        CollapseNewlinesByCharacter(s[1..]);
      } else {
        var n := LeadingNewlines(s);
        CollapseNewlinesByCharacter(s[n..]);
        NewlineFilterOfRun(s, n);
      }
    }
  }

  /** Pass 3 leaves text alone that has no tab and no two adjacent spaces. */
  lemma {:induction false} CollapseHSpaceIdle(s: string)
    requires '\t' !in s && NoDoubleHSpace(s)
    ensures CollapseHSpace(s) == s
    decreases |s|
  {
    if s != [] {
      assert NoDoubleHSpace(s[1..]) by {
        forall i | 0 <= i < |s[1..]| - 1 ensures !(IsHSpace(s[1..][i]) && IsHSpace(s[1..][i + 1])) {
          assert s[1..][i] == s[i + 1] && s[1..][i + 1] == s[i + 2];
        }
      }
      CollapseHSpaceIdle(s[1..]);
      if IsHSpace(s[0]) {
        assert s[1..] == [] || !IsHSpace(s[1]);
        assert DropHSpace(s[1..]) == s[1..];
        assert s[0] == ' ';
      }
      assert s == [s[0]] + s[1..];
    }
  }

  lemma {:induction false} RemoveNewlinesOfRun(s: string, n: nat)
    requires n <= |s| && forall i :: 0 <= i < n ==> s[i] == '\n'
    ensures RemoveNewlines(s) == RemoveNewlines(s[n..])
    decreases n
  {
    if n > 0 {
      RemoveNewlinesOfRun(s[1..], n - 1);
      assert s[1..][n - 1..] == s[n..];
    }
  }

  lemma {:induction false} RemoveNewlinesAppend(a: string, b: string)
    ensures RemoveNewlines(a + b) == RemoveNewlines(a) + RemoveNewlines(b)
    decreases |a|
  {
    if a != [] {
      RemoveNewlinesAppend(a[1..], b);
      assert (a + b)[1..] == a[1..] + b;
    } else {
      assert a + b == b;
    }
  }

  /** Pass 4 changes only newlines: removing newlines from its input and from
      its output gives the same text. */
  lemma {:induction false} CollapseNewlinesKeepsText(s: string)
    ensures RemoveNewlines(CollapseNewlines(s)) == RemoveNewlines(s)
    decreases |s|
  {
    if s != [] {
      if s[0] != '\n' {
        CollapseNewlinesKeepsText(s[1..]);
        RemoveNewlinesAppend([s[0]], CollapseNewlines(s[1..]));
      } else {
        var n := LeadingNewlines(s);
        var head := if n >= 3 then "\n\n" else s[..n];
        CollapseNewlinesKeepsText(s[n..]);
        RemoveNewlinesAppend(head, CollapseNewlines(s[n..]));
        RemoveNewlinesOfRun(head, |head|);
        RemoveNewlinesOfRun(s, n);
      }
    }
  }

  lemma NoTripleNewlineSuffix(s: string, n: nat)
    requires n <= |s| && NoTripleNewline(s)
    ensures NoTripleNewline(s[n..])
  {
    forall i | 0 <= i < |s[n..]| - 2
      ensures !(s[n..][i] == '\n' && s[n..][i + 1] == '\n' && s[n..][i + 2] == '\n')
    {
      assert s[n..][i] == s[n + i] && s[n..][i + 1] == s[n + i + 1] && s[n..][i + 2] == s[n + i + 2];
    }
  }

  /** Pass 4 leaves text alone that has no three adjacent newlines. */
  lemma {:induction false} CollapseNewlinesIdle(s: string)
    requires NoTripleNewline(s)
    ensures CollapseNewlines(s) == s
    decreases |s|
  {
    if s != [] {
      if s[0] != '\n' {
        NoTripleNewlineSuffix(s, 1);
        CollapseNewlinesIdle(s[1..]);
        assert s == [s[0]] + s[1..];
      } else {
        var n := LeadingNewlines(s);
        assert n <= 2 by {
          assert |s| > 2 ==> !(s[0] == '\n' && s[1] == '\n' && s[2] == '\n');
        }
        NoTripleNewlineSuffix(s, n);
        CollapseNewlinesIdle(s[n..]);
        assert s == s[..n] + s[n..];
      }
    }
  }

  /** Pass 2 keeps a text that has no newline followed by two dashes. */
  lemma CutSignatureIdle(s: string)
    requires NoDashLine(s)
    ensures CutSignature(s) == s
  {
    forall j | 0 <= j < |s| ensures !SignatureAt(s, j) {
      if j + 1 <= |s| && DashRun(s, j + 1) >= 2 {
        assert s[j + 1] == '-' && s[j + 2] == '-';
      }
    }
    assert FirstSignature(s, 0) == |s|;
  }

  /** Text that is already clean: no carriage return, no tab, no two adjacent
      spaces, no three adjacent newlines, no whitespace at either end and no
      newline followed by two dashes. */
  ghost predicate IsClean(s: string) {
    '\r' !in s && '\t' !in s && NoDoubleHSpace(s) && NoTripleNewline(s) && NoDashLine(s)
    && (s == [] || (!IsSpace(s[0]) && !IsSpace(s[|s| - 1])))
  }

  /** Clean text comes back unchanged. */
  lemma CleanTextIdle(s: string)
    requires IsClean(s)
    ensures CleanText(Some(s)) == s
  {
    assert ReplaceCR(s) == s;
    assert Strip(s) == s;
    CutSignatureIdle(s);
    CollapseHSpaceIdle(s);
    CollapseNewlinesIdle(s);
  }

  /** Text made only of whitespace cleans to the empty string. */
  lemma CleanTextBlank(s: string)
    requires forall i :: 0 <= i < |s| ==> IsSpace(s[i])
    ensures CleanText(Some(s)) == ""
  {
    var t := ReplaceCR(s);
    assert forall i :: 0 <= i < |t| ==> IsSpace(t[i]);
    assert Strip(t) == [];
  }

  /** Text with a non-whitespace character keeps one: the passes keep the
      first non-whitespace character at the front. */
  lemma CleanTextNotBlank(s: string, i: nat)
    requires i < |s| && !IsSpace(s[i])
    ensures CleanText(Some(s)) != ""
  {
    var t := ReplaceCR(s);
    assert t[i] == s[i];
    var u := Strip(t);
    assert u != [];
    SignatureAtIff(u, 0);
    assert CutSignature(u) != [];
  }

  /** `clean_text` gives the empty string exactly for text made only of whitespace. */
  lemma CleanTextEmptyIff(s: string)
    ensures CleanText(Some(s)) == "" <==> forall i :: 0 <= i < |s| ==> IsSpace(s[i])
  {
    if forall i :: 0 <= i < |s| ==> IsSpace(s[i]) {
      CleanTextBlank(s);
    } else {
      var i :| 0 <= i < |s| && !IsSpace(s[i]);
      CleanTextNotBlank(s, i);
    }
  }

  lemma ReplaceCRIdle(s: string)
    requires '\r' !in s
    ensures ReplaceCR(s) == s
  {
  }

  lemma StripIdle(s: string)
    requires s == [] || (!IsSpace(s[0]) && !IsSpace(s[|s| - 1]))
    ensures Strip(s) == s
  {
  }

  /** The cut falls at a signature with no newline before it. */
  lemma CutAtFirstNewline(s: string, i: nat)
    requires SignatureAt(s, i)
    requires forall j :: 0 <= j < i ==> s[j] != '\n'
    ensures CutSignature(s) == s[..i]
  {
  }

  /** The cut keeps `s` when its only newline is not a signature. */
  lemma CutNothing(s: string, i: nat)
    requires !SignatureAt(s, i)
    requires forall j :: 0 <= j < |s| && j != i ==> s[j] != '\n'
    ensures CutSignature(s) == s
  {
    assert FirstSignature(s, 0) == |s|;
  }

  /** Cleaning in terms of the passes, for a text that the first pass keeps. */
  lemma CleanTextOfKept(s: string, cut: string)
    requires '\r' !in s && (s == [] || (!IsSpace(s[0]) && !IsSpace(s[|s| - 1])))
    requires CutSignature(s) == cut
    requires '\t' !in cut && NoDoubleHSpace(cut) && NoTripleNewline(cut)
    ensures CleanText(Some(s)) == cut
  {
    ReplaceCRIdle(s);
    StripIdle(s);
    CollapseHSpaceIdle(cut);
    CollapseNewlinesIdle(cut);
  }

  /** A clean body followed by a signature cleans to the body. */
  lemma CleanTextCutsSignature(body: string, sig: string)
    requires IsClean(body) && body != []
    requires '\r' !in sig && sig != [] && !IsSpace(sig[|sig| - 1])
    requires SignatureAt(body + sig, |body|)
    ensures CleanText(Some(body + sig)) == body
  {
    var s := body + sig;
    forall j | 0 <= j < |body| ensures !SignatureAt(s, j) {
      if j + 2 < |body| {
        assert s[j] == body[j] && s[j + 1] == body[j + 1] && s[j + 2] == body[j + 2];
        assert !(body[j] == '\n' && body[j + 1] == '-' && body[j + 2] == '-');
      } else {
        assert s[|body|] == '\n';
      }
    }
    assert FirstSignature(s, 0) == |body|;
    assert s[..|body|] == body;
    CleanTextOfKept(s, body);
  }

  lemma HelloFacts()
    ensures IsClean("Hello")
    ensures var sig := "\n--\nSent from my phone"; '\r' !in sig && !IsSpace(sig[|sig| - 1])
    ensures SignatureAt("Hello" + "\n--\nSent from my phone", 5)
  {
  }

  /** "Hello\n--\nSent from my phone" cleans to "Hello". */
  lemma SignatureCutExample()
    ensures CleanText(Some("Hello" + "\n--\nSent from my phone")) == "Hello"
  {
    HelloFacts();
    CleanTextCutsSignature("Hello", "\n--\nSent from my phone");
  }

  lemma LongTailFacts()
    ensures var s := "Hi\n--" + seq(401, _ => 'x');
      !SignatureAt(s, 2) && (forall j :: 0 <= j < |s| && j != 2 ==> s[j] != '\n')
      && '\r' !in s && !IsSpace(s[0]) && !IsSpace(s[|s| - 1])
      && '\t' !in s && NoDoubleHSpace(s) && NoTripleNewline(s)
  {
    var s := "Hi\n--" + seq(401, _ => 'x');
    assert forall i :: 5 <= i < |s| ==> s[i] == 'x';
    assert DashRun(s, 5) == 0;
    assert DashRun(s, 3) == 2;
  }

  /** A dash line followed by more than 400 characters is not a signature:
      "Hi\n--" followed by 401 letters is kept whole. */
  lemma LongTailKeptExample()
    ensures var s := "Hi\n--" + seq(401, _ => 'x'); CleanText(Some(s)) == s
  {
    var s := "Hi\n--" + seq(401, _ => 'x');
    LongTailFacts();
    CutNothing(s, 2);
    CleanTextOfKept(s, s);
  }

  /** Cleaning ends with the first pass when that pass already yields clean text. */
  lemma CleanTextStripsTo(s: string, t: string)
    requires Strip(ReplaceCR(s)) == t && IsClean(t)
    ensures CleanText(Some(s)) == t
  {
    CutSignatureIdle(t);
    CollapseHSpaceIdle(t);
    CollapseNewlinesIdle(t);
  }

  lemma TrailingSpaceFacts()
    ensures SignatureAt("Hello " + "\n--x", 6) && forall j :: 0 <= j < 6 ==> ("Hello " + "\n--x")[j] != '\n'
    ensures '\r' !in "Hello \n--x" && '\r' !in "Hello " && !IsSpace('x') && '\t' !in "Hello " && NoDoubleHSpace("Hello ") && NoTripleNewline("Hello ")
  {
  }

  lemma HelloSpaceFacts()
    ensures StripEnd(StripStart("Hello ")) == "Hello"
  {
    assert StripStart("Hello ") == "Hello ";
    assert "Hello "[..5] == "Hello";
    assert StripEnd("Hello") == "Hello";
  }

  /** The cut runs after the strip, so the result can end in a space. */
  lemma TrailingSpaceExample()
    ensures CleanText(Some("Hello " + "\n--x")) == "Hello "
  {
    var s := "Hello " + "\n--x";
    TrailingSpaceFacts();
    CutAtFirstNewline(s, 6);
    assert s[..6] == "Hello ";
    CleanTextOfKept(s, "Hello ");
  }

  lemma CleanHelloSpace()
    ensures CleanText(Some("Hello ")) == "Hello"
  {
    TrailingSpaceFacts();
    HelloSpaceFacts();
    HelloFacts();
    ReplaceCRIdle("Hello ");
    CleanTextStripsTo("Hello ", "Hello");
  }

  /** Cleaning the cleaned text can change it again: the cleaner is neither
      stripping nor idempotent. */
  lemma NotIdempotentExample()
    ensures CleanText(Some(CleanText(Some("Hello " + "\n--x")))) != CleanText(Some("Hello " + "\n--x"))
  {
    TrailingSpaceExample();
    CleanHelloSpace();
  }
}
