/** Shared wrappers and the fragment of Python's string semantics the
    pipeline relies on: substring search (`p in s`), `strip()`, `split()`,
    `split(sep)`, `sep.join(parts)`, `lower()`, `isupper()`, `isdigit()`
    and the `(.)\1{5,}` repetition test.  Strings are sequences of Unicode
    scalar values, as Python's `str` is. */
module Text {

  datatype Option<+T> = None | Some(value: T)

  datatype Result<+T, +E> = Ok(value: T) | Err(error: E)

  // ---------------------------------------------------------------------
  // Character classes
  // ---------------------------------------------------------------------

  /** Python's `str.isspace()` on one character; `strip()`, `split()` and
      the regex class `\s` use the same set. */
  predicate IsSpace(c: char)
  {
    c == ' ' || ('\U{9}' <= c <= '\U{D}') || ('\U{1C}' <= c <= '\U{1F}')
    || c == '\U{85}' || c == '\U{A0}' || c == '\U{1680}'
    || ('\U{2000}' <= c <= '\U{200A}') || c == '\U{2028}' || c == '\U{2029}'
    || c == '\U{202F}' || c == '\U{205F}' || c == '\U{3000}'
  }

  /** Upper-case letters: A-Z, the Latin-1 capitals, the unaccented Greek
      capitals, U+0400-U+042F and U+0490. Latin Extended, the accented
      Greek capitals and the rest of the Cyrillic block have no case here. */
  predicate IsUpper(c: char)
  {
    ('A' <= c <= 'Z')
    || ('\U{C0}' <= c <= '\U{DE}' && c != '\U{D7}')
    || ('\U{391}' <= c <= '\U{3A9}' && c != '\U{3A2}')
    || ('\U{400}' <= c <= '\U{42F}')
    || c == '\U{490}'
  }

  predicate IsDigit(c: char)
  {
    '0' <= c <= '9'
  }

  /** Python's `lower()` on one character, for the letters `IsUpper` knows. */
  function LowerChar(c: char): (d: char)
    ensures IsUpper(c) ==> d != c && !IsUpper(d)
    ensures !IsUpper(c) ==> d == c
  {
    if 'A' <= c <= 'Z' then (c as int + 32) as char
    else if '\U{C0}' <= c <= '\U{DE}' && c != '\U{D7}' then (c as int + 32) as char
    else if '\U{391}' <= c <= '\U{3A9}' && c != '\U{3A2}' then (c as int + 32) as char
    else if '\U{400}' <= c <= '\U{40F}' then (c as int + 80) as char
    else if '\U{410}' <= c <= '\U{42F}' then (c as int + 32) as char
    else if c == '\U{490}' then '\U{491}'
    else c
  }

  /** Python's `s.lower()`. */
  function Lower(s: string): (r: string)
    ensures |r| == |s|
    ensures forall i :: 0 <= i < |s| ==> r[i] == LowerChar(s[i])
  {
    seq(|s|, i requires 0 <= i < |s| => LowerChar(s[i]))
  }

  /** Number of characters of `s` satisfying `p`
      (`sum(1 for c in s if p(c))`). */
  function CountChars(s: string, p: char -> bool): (n: nat)
    ensures n <= |s|
  {
    if s == [] then 0 else (if p(s[0]) then 1 else 0) + CountChars(s[1..], p)
  }

  // ---------------------------------------------------------------------
  // Substrings
  // ---------------------------------------------------------------------

  /** Python's `p in s` for strings: `p` occurs in `s` contiguously. */
  predicate Contains(s: string, p: string)
    decreases |s|
  {
    p <= s || (|s| > 0 && Contains(s[1..], p))
  }

  lemma {:induction false} ContainsAt(s: string, p: string, k: nat)
    requires k + |p| <= |s| && s[k..k + |p|] == p
    ensures Contains(s, p)
  {
    if k == 0 {
      assert s[..|p|] == p;
    } else {
      assert s[1..][k - 1..k - 1 + |p|] == s[k..k + |p|];
      ContainsAt(s[1..], p, k - 1);
    }
  }

  lemma {:induction false} ContainsWitness(s: string, p: string) returns (k: nat)
    requires Contains(s, p)
    ensures k + |p| <= |s| && s[k..k + |p|] == p
  {
    if p <= s {
      k := 0;
    } else {
      var j := ContainsWitness(s[1..], p);
      assert s[1..][j..j + |p|] == s[j + 1..j + 1 + |p|];
      k := j + 1;
    }
  }

  /** A non-empty pattern whose first character does not occur is absent. */
  lemma {:induction false} MissingFirstCharNotContained(s: string, p: string)
    requires |p| >= 1 && p[0] !in s
    ensures !Contains(s, p)
  {
    if |s| > 0 {
      assert s[0] in s;
      assert s[1..] <= s[1..] && forall c :: c in s[1..] ==> c in s;
      MissingFirstCharNotContained(s[1..], p);
    }
  }

  /** A pattern whose first two characters never occur side by side in `s`
      is absent from `s`. */
  lemma {:induction false} MissingPairNotContained(s: string, p: string)
    requires |p| >= 2
    requires forall k :: 0 <= k < |s| - 1 ==> !(s[k] == p[0] && s[k + 1] == p[1])
    ensures !Contains(s, p)
  {
    if |s| > 0 {
      assert |s| >= 2 ==> !(s[0] == p[0] && s[1] == p[1]);
      var t := s[1..];
      forall k | 0 <= k < |t| - 1
        ensures !(t[k] == p[0] && t[k + 1] == p[1])
      {
        assert t[k] == s[k + 1] && t[k + 1] == s[k + 2];
      }
      MissingPairNotContained(t, p);
    }
  }

  /** Python's `s.endswith(suffix)`. */
  predicate EndsWith(s: string, suffix: string)
  {
    |suffix| <= |s| && s[|s| - |suffix|..] == suffix
  }

  /** A non-empty string of decimal digits. */
  predicate IsNumeral(s: string)
  {
    |s| >= 1 && forall i :: 0 <= i < |s| ==> IsDigit(s[i])
  }

  /** The first element of `needles`, in list order, that occurs in `text`
      (the `for word in list: if word in text: return ...` scan). */
  function FirstContained(needles: seq<string>, text: string): (r: Option<string>)
  {
    if needles == [] then None
    else if Contains(text, needles[0]) then Some(needles[0])
    else FirstContained(needles[1..], text)
  }

  /** The scan finds nothing exactly when no needle occurs, and what it
      finds is the first needle that occurs. */
  lemma FirstContainedIsFirst(needles: seq<string>, text: string)
    ensures FirstContained(needles, text).None?
            <==> forall i :: 0 <= i < |needles| ==> !Contains(text, needles[i])
    ensures FirstContained(needles, text).Some? ==>
              exists i :: 0 <= i < |needles| && needles[i] == FirstContained(needles, text).value
                          && Contains(text, needles[i])
                          && forall j :: 0 <= j < i ==> !Contains(text, needles[j])
  {
    FirstContainedNone(needles, text);
    if FirstContained(needles, text).Some? {
      var i := FirstContainedSome(needles, text);
    }
  }

  lemma {:induction false} FirstContainedNone(needles: seq<string>, text: string)
    ensures FirstContained(needles, text).None?
            <==> forall i :: 0 <= i < |needles| ==> !Contains(text, needles[i])
  {
    if needles != [] && !Contains(text, needles[0]) {
      FirstContainedNone(needles[1..], text);
      if FirstContained(needles, text).None? {
        forall i | 0 <= i < |needles| ensures !Contains(text, needles[i]) {
          if i > 0 { assert needles[i] == needles[1..][i - 1]; }
        }
      }
    }
  }

  /** The index of the needle the scan returns. */
  lemma {:induction false} FirstContainedSome(needles: seq<string>, text: string) returns (i: nat)
    requires FirstContained(needles, text).Some?
    ensures i < |needles| && needles[i] == FirstContained(needles, text).value
    ensures Contains(text, needles[i])
    ensures forall j :: 0 <= j < i ==> !Contains(text, needles[j])
  {
    if Contains(text, needles[0]) {
      i := 0;
    } else {
      var k := FirstContainedSome(needles[1..], text);
      i := k + 1;
      forall j | 0 <= j < i ensures !Contains(text, needles[j]) {
        if j > 0 { assert needles[j] == needles[1..][j - 1]; }
      }
    }
  }

  /** The scan returns needle `i` when it occurs and no earlier one does. */
  lemma {:induction false} FirstContainedAt(needles: seq<string>, text: string, i: nat)
    requires i < |needles| && Contains(text, needles[i])
    requires forall j :: 0 <= j < i ==> !Contains(text, needles[j])
    ensures FirstContained(needles, text) == Some(needles[i])
  {
    if i > 0 {
      assert !Contains(text, needles[0]);
      forall j | 0 <= j < i - 1 ensures !Contains(text, needles[1..][j]) {
        assert needles[1..][j] == needles[j + 1];
      }
      FirstContainedAt(needles[1..], text, i - 1);
    }
  }

  // ---------------------------------------------------------------------
  // strip(), split(), split(sep), join
  // ---------------------------------------------------------------------

  /** Python's `s.strip()` with no argument: `s` without its leading and
      trailing white space. */
  function Strip(s: string): string
  {
    Trim(s, 0, |s|)
  }

  /** `s[i..j]` without its leading and trailing white space. */
  function Trim(s: string, i: nat, j: nat): string
    requires i <= j <= |s|
    decreases j - i
  {
    if i < j && IsSpace(s[i]) then Trim(s, i + 1, j)
    else if i < j && IsSpace(s[j - 1]) then Trim(s, i, j - 1)
    else s[i..j]
  }

  /** What `Trim` keeps is a slice `s[a..b]` with only white space on
      either side of it inside `s[i..j]`, and which is empty or starts and
      ends with a character that is not white space. */
  lemma {:induction false} TrimSlice(s: string, i: nat, j: nat) returns (a: nat, b: nat)
    requires i <= j <= |s|
    ensures i <= a <= b <= j && Trim(s, i, j) == s[a..b]
    ensures forall k :: i <= k < a ==> IsSpace(s[k])
    ensures forall k :: b <= k < j ==> IsSpace(s[k])
    ensures a < b ==> !IsSpace(s[a]) && !IsSpace(s[b - 1])
    decreases j - i
  {
    if i < j && IsSpace(s[i]) {
      a, b := TrimSlice(s, i + 1, j);
    } else if i < j && IsSpace(s[j - 1]) {
      a, b := TrimSlice(s, i, j - 1);
    } else {
      a, b := i, j;
    }
  }

  predicate IsBlank(s: string)
  {
    forall i :: 0 <= i < |s| ==> IsSpace(s[i])
  }

  /** `s.strip()` is empty exactly when every character of `s` is
      white space (the empty string included). */
  lemma StripEmptyIffBlank(s: string)
    ensures Strip(s) == [] <==> IsBlank(s)
  {
    var a, b := TrimSlice(s, 0, |s|);
    if a < b {
      assert Strip(s)[0] == s[a];
    }
  }

  /** A stripped string is empty or starts and ends with a character that
      is not white space. */
  lemma StripTrims(s: string)
    ensures var r := Strip(s);
            r == [] || (!IsSpace(r[0]) && !IsSpace(r[|r| - 1]))
  {
    var a, b := TrimSlice(s, 0, |s|);
  }

  /** Stripping a blank lead, then a `head` that starts with a non-space
      character, then a `tail` with a non-space character at `k`, leaves
      `head` at the front. */
  lemma StripKeepsHead(lead: string, head: string, tail: string, k: nat)
    requires IsBlank(lead) && |head| > 0 && !IsSpace(head[0])
    requires k < |tail| && !IsSpace(tail[k])
    ensures head <= Strip(lead + head + tail)
  {
    var s := lead + head + tail;
    var a, b := TrimSlice(s, 0, |s|);
    var p := |lead| + |head| + k;
    assert s[|lead|] == head[0] && s[p] == tail[k];
    assert a == |lead|;
    assert p < b;
    assert s[|lead|..|lead| + |head|] == head;
  }

  /** The leading white space of `s` (`StripLeft`), as `split()` skips it. */
  function StripLeft(s: string): (r: string)
    ensures |r| <= |s| && r == s[|s| - |r|..]
    ensures r == [] || !IsSpace(r[0])
    decreases |s|
  {
    if |s| > 0 && IsSpace(s[0]) then StripLeft(s[1..]) else s
  }

  /** The maximal run of non-space characters at the start of `s`. */
  function LeadingWord(s: string): (w: string)
    ensures w <= s
    ensures |s| > 0 && !IsSpace(s[0]) ==> |w| > 0
    decreases |s|
  {
    if |s| == 0 || IsSpace(s[0]) then [] else [s[0]] + LeadingWord(s[1..])
  }

  /** Python's `s.split()` with no argument: the maximal runs of
      non-space characters, in order. */
  function Words(s: string): seq<string>
    decreases |s|
  {
    var t := StripLeft(s);
    if t == [] then []
    else
      var w := LeadingWord(t);
      [w] + Words(t[|w|..])
  }

  lemma {:induction false} LeadingWordHasNoSpace(s: string)
    ensures forall i :: 0 <= i < |LeadingWord(s)| ==> !IsSpace(LeadingWord(s)[i])
    decreases |s|
  {
    if |s| > 0 && !IsSpace(s[0]) {
      LeadingWordHasNoSpace(s[1..]);
      var w := LeadingWord(s);
      assert forall i :: 1 <= i < |w| ==> w[i] == LeadingWord(s[1..])[i - 1];
    }
  }

  /** A non-empty string without white space. */
  predicate IsWord(w: string)
  {
    |w| > 0 && forall j :: 0 <= j < |w| ==> !IsSpace(w[j])
  }

  /** Every word `split()` returns is non-empty and free of white space. */
  lemma {:induction false} WordsAreNonBlank(s: string)
    ensures forall i :: 0 <= i < |Words(s)| ==> IsWord(Words(s)[i])
    decreases |s|
  {
    var t := StripLeft(s);
    if t != [] {
      var w := LeadingWord(t);
      LeadingWordHasNoSpace(t);
      assert IsWord(w);
      WordsAreNonBlank(t[|w|..]);
      var ws := Words(s);
      assert ws == [w] + Words(t[|w|..]);
      forall i | 0 <= i < |ws| ensures IsWord(ws[i]) {
        if i > 0 { assert ws[i] == Words(t[|w|..])[i - 1]; }
      }
    }
  }

  /** Python's `s.split(sep)` for a non-empty separator: the pieces
      between non-overlapping occurrences, found left to right. */
  function Split(s: string, sep: string): (parts: seq<string>)
    requires |sep| > 0
    ensures |parts| >= 1
    decreases |s|
  {
    if |s| < |sep| then [s]
    else if sep <= s then [""] + Split(s[|sep|..], sep)
    else
      var rest := Split(s[1..], sep);
      [[s[0]] + rest[0]] + rest[1..]
  }

  /** Python's `sep.join(parts)`. */
  function Join(sep: string, parts: seq<string>): string
  {
    if parts == [] then ""
    else if |parts| == 1 then parts[0]
    else parts[0] + sep + Join(sep, parts[1..])
  }

  lemma JoinCons(sep: string, head: string, tail: seq<string>)
    requires |tail| >= 1
    ensures Join(sep, [head] + tail) == head + sep + Join(sep, tail)
  {
    assert ([head] + tail)[1..] == tail;
  }

  /** Joining the pieces of `s.split(sep)` with `sep` gives back `s`. */
  lemma {:induction false} JoinSplit(s: string, sep: string)
    requires |sep| > 0
    ensures Join(sep, Split(s, sep)) == s
    decreases |s|
  {
    if |s| < |sep| {
    } else if sep <= s {
      JoinSplit(s[|sep|..], sep);
      JoinSplitAtSeparator(s, sep);
    } else {
      JoinSplit(s[1..], sep);
      JoinSplitPastChar(s, sep);
    }
  }

  /** The step of `JoinSplit` where `s` starts with the separator. */
  lemma JoinSplitAtSeparator(s: string, sep: string)
    requires |sep| > 0 && |s| >= |sep| && sep <= s
    requires Join(sep, Split(s[|sep|..], sep)) == s[|sep|..]
    ensures Join(sep, Split(s, sep)) == s
  {
    var tail := s[|sep|..];
    var rest := Split(tail, sep);
    SplitAtSeparator(s, sep);
    JoinEmptyHead(sep, rest);
    SplitOffPrefix(s, sep);
  }

  /** `s.split(sep)` where `s` starts with `sep` begins with an empty piece. */
  lemma SplitAtSeparator(s: string, sep: string)
    requires |sep| > 0 && |s| >= |sep| && sep <= s
    ensures Split(s, sep) == [""] + Split(s[|sep|..], sep)
  {
  }

  lemma JoinEmptyHead(sep: string, rest: seq<string>)
    requires |rest| >= 1
    ensures Join(sep, [""] + rest) == sep + Join(sep, rest)
  {
    JoinCons(sep, "", rest);
    assert "" + sep == sep;
  }

  lemma SplitOffPrefix(s: string, sep: string)
    requires |s| >= |sep| && sep <= s
    ensures s == sep + s[|sep|..]
  {
  }

  /** `s.split(sep)` where `s` does not start with `sep` glues the first
      character onto the first piece of the rest. */
  lemma SplitPastChar(s: string, sep: string)
    requires |sep| > 0 && |s| >= |sep| && !(sep <= s)
    ensures Split(s, sep) == [[s[0]] + Split(s[1..], sep)[0]] + Split(s[1..], sep)[1..]
  {
  }

  lemma JoinGlued(sep: string, c: char, rest: seq<string>)
    requires |rest| >= 1
    ensures Join(sep, [[c] + rest[0]] + rest[1..]) == [c] + Join(sep, rest)
  {
    if |rest| == 1 {
      assert [[c] + rest[0]] + rest[1..] == [[c] + rest[0]];
    } else {
      JoinCons(sep, rest[0], rest[1..]);
      JoinCons(sep, [c] + rest[0], rest[1..]);
      assert [rest[0]] + rest[1..] == rest;
    }
  }

  /** The step of `JoinSplit` where `s` does not start with the separator. */
  lemma JoinSplitPastChar(s: string, sep: string)
    requires |sep| > 0 && |s| >= |sep| && !(sep <= s)
    requires Join(sep, Split(s[1..], sep)) == s[1..]
    ensures Join(sep, Split(s, sep)) == s
  {
    SplitPastChar(s, sep);
    JoinGlued(sep, s[0], Split(s[1..], sep));
    assert s == [s[0]] + s[1..];
  }

  /** A word free of the separator's first character is the first piece
      of the split of that word followed by the separator. */
  lemma {:induction false} SplitLeadingPiece(w: string, sep: string, rest: string)
    requires |sep| > 0 && sep[0] !in w
    ensures Split(w + sep + rest, sep)[0] == w
    decreases |w|
  {
    var s := w + sep + rest;
    if w == [] {
      assert s == sep + rest;
      assert sep <= s;
    } else {
      assert s[0] == w[0];
      assert !(sep <= s);
      assert s[1..] == w[1..] + sep + rest;
      SplitLeadingPiece(w[1..], sep, rest);
      assert [w[0]] + w[1..] == w;
    }
  }

  // ---------------------------------------------------------------------
  // Numbers as text
  // ---------------------------------------------------------------------

  function DigitChar(d: nat): char
    requires d < 10
  {
    ('0' as int + d) as char
  }

  /** Python's `str(n)` for a non-negative integer. */
  function DecimalString(n: nat): (s: string)
    ensures |s| >= 1
    ensures forall i :: 0 <= i < |s| ==> IsDigit(s[i])
  {
    if n < 10 then [DigitChar(n)] else DecimalString(n / 10) + [DigitChar(n % 10)]
  }

  /** Different numbers print differently. */
  lemma {:induction false} DecimalStringInjective(a: nat, b: nat)
    ensures DecimalString(a) == DecimalString(b) ==> a == b
  {
    var sa, sb := DecimalString(a), DecimalString(b);
    assert |sa| == 1 <==> a < 10;
    assert |sb| == 1 <==> b < 10;
    if sa == sb && a < 10 && b < 10 {
      assert sa[0] == DigitChar(a) && sb[0] == DigitChar(b);
    } else if sa == sb && a >= 10 && b >= 10 {
      assert sa[|sa| - 1] == DigitChar(a % 10) && sb[|sb| - 1] == DigitChar(b % 10);
      assert sa[..|sa| - 1] == DecimalString(a / 10);
      assert sb[..|sb| - 1] == DecimalString(b / 10);
      DecimalStringInjective(a / 10, b / 10);
    }
  }

  // ---------------------------------------------------------------------
  // Shares and sets of sequence elements
  // ---------------------------------------------------------------------

  /** `part / whole` for counts, a share in [0, 1]. */
  function Ratio(part: nat, whole: nat): (r: real)
    requires part <= whole && whole > 0
    ensures 0.0 <= r <= 1.0
    ensures r * whole as real == part as real
  {
    part as real / whole as real
  }

  lemma SubsetNoLarger<T>(a: set<T>, b: set<T>)
    requires a <= b
    ensures |a| <= |b|
  {
    assert b == a + (b - a);
  }

  /** Python's `set(xs)`. */
  function ToSet<T>(xs: seq<T>): set<T>
  {
    set x | x in xs
  }

  lemma {:induction false} ToSetNoLarger<T>(xs: seq<T>)
    ensures |ToSet(xs)| <= |xs|
  {
    if xs != [] {
      ToSetNoLarger(xs[1..]);
      assert ToSet(xs) == ToSet(xs[1..]) + {xs[0]};
    }
  }
}
