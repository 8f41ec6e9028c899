/** The two string operations the admin page's validator relies on:
    JavaScript's `String.prototype.trim` and `split(/\s+/)`.
    Both use the same notion of white space (the ECMAScript WhiteSpace and
    LineTerminator code points), given by `IsSpace`. */
module Text {

  /** ECMAScript white space and line terminators, the set matched by `\s`
      and removed by `trim`. */
  predicate IsSpace(c: char)
    ensures c < '\U{0080}' ==> (IsSpace(c) <==> c == ' ' || '\t' <= c <= '\r')
  {
    || c == '\t' || c == '\n' || c == '\U{000B}' || c == '\U{000C}' || c == '\r'
    || c == ' ' || c == '\U{00A0}' || c == '\U{1680}'
    || ('\U{2000}' <= c <= '\U{200A}')
    || c == '\U{2028}' || c == '\U{2029}' || c == '\U{202F}' || c == '\U{205F}'
    || c == '\U{3000}' || c == '\U{FEFF}'
  }

  /** Every character of `s` is white space (the empty string included). */
  predicate Blank(s: string) {
    forall i :: 0 <= i < |s| ==> IsSpace(s[i])
  }

  /** No character of `s` is white space. */
  predicate SpaceFree(s: string) {
    forall i :: 0 <= i < |s| ==> !IsSpace(s[i])
  }

  /** Neither end of `s` is white space. */
  predicate IsTrimmed(s: string) {
    s == [] || (!IsSpace(s[0]) && !IsSpace(s[|s| - 1]))
  }

  /** A word in the sense of the split: non-empty and free of white space. */
  predicate IsWord(w: string) {
    w != [] && SpaceFree(w)
  }

  /** `trimStart`: the suffix left after the leading run of white space. */
  function TrimStart(s: string): (r: string)
    ensures |r| <= |s|
  {
    if s != [] && IsSpace(s[0]) then TrimStart(s[1..]) else s
  }

  /** What `TrimStart` cuts is a blank prefix, and what is left does not
      start with white space. */
  lemma {:induction false} TrimStartSpec(s: string)
    ensures var r := TrimStart(s);
            && r == s[|s| - |r|..] && Blank(s[..|s| - |r|])
            && (r == [] || !IsSpace(r[0]))
  {
    if s != [] && IsSpace(s[0]) {
      TrimStartSpec(s[1..]);
      var r := TrimStart(s);
      assert s[..|s| - |r|] == [s[0]] + s[1..][..|s| - 1 - |r|];
    }
  }

  /** `trimEnd`: the prefix left before the trailing run of white space. */
  function TrimEnd(s: string): (r: string)
    ensures |r| <= |s|
  {
    if s != [] && IsSpace(s[|s| - 1]) then TrimEnd(s[..|s| - 1]) else s
  }

  /** What `TrimEnd` cuts is a blank suffix, and what is left does not end
      with white space. */
  lemma {:induction false} TrimEndSpec(s: string)
    ensures var r := TrimEnd(s);
            && r == s[..|r|] && Blank(s[|r|..])
            && (r == [] || !IsSpace(r[|r| - 1]))
  {
    if s != [] && IsSpace(s[|s| - 1]) {
      TrimEndSpec(s[..|s| - 1]);
      var r := TrimEnd(s);
      assert s[|r|..] == s[..|s| - 1][|r|..] + [s[|s| - 1]];
    }
  }

  /** `trim`: the input with white space removed from both ends. */
  function Trim(s: string): (r: string)
    ensures IsTrimmed(r) && |r| <= |s|
  {
    TrimStartSpec(s);
    TrimEndSpec(TrimStart(s));
    TrimEnd(TrimStart(s))
  }

  /** The trim is empty exactly when the input is blank. */
  lemma TrimEmptyIffBlank(s: string)
    ensures Trim(s) == [] <==> Blank(s)
  {
    var t := TrimStart(s);
    var r := TrimEnd(t);
    var lo := |s| - |t|;
    TrimStartSpec(s);
    TrimEndSpec(t);
    if r == [] {
      assert s == s[..lo] + t;
      BlankConcat(s[..lo], t);
    } else {
      assert s[lo] == t[0] == r[0];
    }
  }

  /** The trim is a contiguous piece of the input, and everything cut away on
      either side is white space. */
  lemma TrimIsPiece(s: string)
    ensures exists lo :: 0 <= lo <= |s| - |Trim(s)| && Trim(s) == s[lo..lo + |Trim(s)|]
                         && Blank(s[..lo]) && Blank(s[lo + |Trim(s)|..])
  {
    var t := TrimStart(s);
    var r := TrimEnd(t);
    var lo := |s| - |t|;
    TrimStartSpec(s);
    TrimEndSpec(t);
    assert r == s[lo..lo + |r|];
    assert s[lo + |r|..] == t[|r|..];
    assert 0 <= lo <= |s| - |r| && r == s[lo..lo + |r|] && Blank(s[..lo]) && Blank(s[lo + |r|..]);
  }

  lemma BlankConcat(a: string, b: string)
    requires Blank(a) && Blank(b)
    ensures Blank(a + b)
  {
    forall i | 0 <= i < |a + b| ensures IsSpace((a + b)[i]) {
      if i < |a| { assert (a + b)[i] == a[i]; } else { assert (a + b)[i] == b[i - |a|]; }
    }
  }

  /** `split(/\s+/)`: the fields between maximal runs of white space. As in
      JavaScript, a leading (trailing) run yields an empty first (last)
      field, and the empty string yields the single field "". */
  function Split(s: string): (r: seq<string>)
    ensures |r| >= 1
    decreases |s|
  {
    if s == [] then [""]
    else if IsSpace(s[0]) then
      TrimStartSpec(s);
      [""] + Split(TrimStart(s))
    else
      var rest := Split(s[1..]);
      [[s[0]] + rest[0]] + rest[1..]
  }

  /** Non-empty runs of white space: what `\s+` matches between two words. */
  predicate AreGaps(gaps: seq<string>) {
    forall k :: 0 <= k < |gaps| ==> gaps[k] != [] && Blank(gaps[k])
  }

  /** Every element is a word. */
  predicate AreWords(ws: seq<string>) {
    forall k :: 0 <= k < |ws| ==> IsWord(ws[k])
  }

  /** The words with `gaps[k]` between word k and word k + 1. */
  function Join(ws: seq<string>, gaps: seq<string>): (r: string)
    requires ws != [] && |gaps| == |ws| - 1
    decreases |ws|
  {
    if |ws| == 1 then ws[0] else ws[0] + gaps[0] + Join(ws[1..], gaps[1..])
  }

  /** The characters of `s` that are not white space, in order. */
  function NonSpace(s: string): (r: string)
    ensures SpaceFree(r) && |r| <= |s|
  {
    if s == [] then []
    else if IsSpace(s[0]) then NonSpace(s[1..])
    else [s[0]] + NonSpace(s[1..])
  }

  /** The concatenation of a sequence of strings. */
  function Concat(ws: seq<string>): (r: string) {
    if ws == [] then [] else ws[0] + Concat(ws[1..])
  }

  /** Trimming is idempotent: a trimmed string is its own trim. */
  lemma TrimOfTrimmed(s: string)
    requires IsTrimmed(s)
    ensures Trim(s) == s
  {
    if s != [] {
      assert TrimStart(s) == s;
      assert TrimEnd(s) == s;
    }
  }

  lemma TrimIdempotent(s: string)
    ensures Trim(Trim(s)) == Trim(s)
  {
    TrimOfTrimmed(Trim(s));
  }

  /** Every field of a split is free of white space. */
  lemma {:induction false} SplitFieldsSpaceFree(s: string)
    ensures forall k :: 0 <= k < |Split(s)| ==> SpaceFree(Split(s)[k])
    decreases |s|
  {
    if s == [] {
    } else if IsSpace(s[0]) {
      TrimStartSpec(s);
      SplitFieldsSpaceFree(TrimStart(s));
    } else {
      SplitFieldsSpaceFree(s[1..]);
      var rest := Split(s[1..]);
      assert SpaceFree([s[0]] + rest[0]);
    }
  }

  /** Splitting loses only white space: the fields, concatenated, are the
      input's non-space characters. */
  lemma {:induction false} SplitKeepsNonSpace(s: string)
    ensures Concat(Split(s)) == NonSpace(s)
    decreases |s|
  {
    if s == [] {
    } else if IsSpace(s[0]) {
      var t := TrimStart(s);
      TrimStartSpec(s);
      SplitKeepsNonSpace(t);
      NonSpaceSkipsBlank(s, |s| - |t|);
      ConcatCons("", Split(t));
      assert "" + Concat(Split(t)) == Concat(Split(t));
    } else {
      SplitKeepsNonSpace(s[1..]);
      var rest := Split(s[1..]);
      ConcatCons(rest[0], rest[1..]);
      assert rest == [rest[0]] + rest[1..];
      ConcatCons([s[0]] + rest[0], rest[1..]);
      assert NonSpace(s) == [s[0]] + NonSpace(s[1..]);
      assert [s[0]] + rest[0] + Concat(rest[1..]) == [s[0]] + (rest[0] + Concat(rest[1..]));
    }
  }

  lemma ConcatCons(x: string, xs: seq<string>)
    ensures Concat([x] + xs) == x + Concat(xs)
  {
    assert ([x] + xs)[1..] == xs;
  }

  /** A blank prefix contributes nothing to `NonSpace`. */
  lemma {:induction false} NonSpaceSkipsBlank(s: string, n: nat)
    requires n <= |s| && Blank(s[..n])
    ensures NonSpace(s) == NonSpace(s[n..])
    decreases n
  {
    if n > 0 {
      assert IsSpace(s[..n][0]);
      assert s[1..][..n - 1] == s[1..n];
      NonSpaceSkipsBlank(s[1..], n - 1);
      assert s[1..][n - 1..] == s[n..];
    }
  }

  /** On a non-empty trimmed string no field is empty: every field is a word. */
  lemma {:induction false} SplitTrimmedGivesWords(s: string)
    requires s != [] && IsTrimmed(s)
    ensures forall k :: 0 <= k < |Split(s)| ==> IsWord(Split(s)[k])
  {
    SplitFieldsSpaceFree(s);
    LaterFieldsNonEmpty(s);
  }

  /** If `s` does not end in white space, every field after the first is non-empty. */
  lemma {:induction false} LaterFieldsNonEmpty(s: string)
    requires s != [] && !IsSpace(s[|s| - 1])
    ensures Split(s)[0] != [] || IsSpace(s[0])
    ensures forall k :: 1 <= k < |Split(s)| ==> Split(s)[k] != []
    decreases |s|
  {
    if IsSpace(s[0]) {
      var t := TrimStart(s);
      TrimStartSpec(s);
      assert s[..|s|][|s| - 1] == s[|s| - 1];
      assert !Blank(s[..|s|]);
      assert t != [];
      assert t[|t| - 1] == s[|s| - 1];
      LaterFieldsNonEmpty(t);
    } else if |s| > 1 {
      assert s[1..][|s| - 2] == s[|s| - 1];
      LaterFieldsNonEmpty(s[1..]);
    }
  }

  /** A space-free word glued to the front of `t` glues onto `t`'s first field. */
  lemma {:induction false} SplitWordPrefix(w: string, t: string)
    requires SpaceFree(w)
    ensures Split(w + t) == [w + Split(t)[0]] + Split(t)[1..]
    decreases |w|
  {
    if w != [] {
      assert (w + t)[0] == w[0];
      assert (w + t)[1..] == w[1..] + t;
      SplitWordPrefix(w[1..], t);
      assert [w[0]] + (w[1..] + Split(t)[0]) == w + Split(t)[0];
    } else {
      assert w + t == t;
      assert Split(t) == [Split(t)[0]] + Split(t)[1..];
      assert w + Split(t)[0] == Split(t)[0];
    }
  }

  /** A blank prefix is all that `TrimStart` removes when what follows it
      does not start with white space. */
  lemma {:induction false} TrimStartBlankPrefix(b: string, t: string)
    requires Blank(b) && (t == [] || !IsSpace(t[0]))
    ensures TrimStart(b + t) == t
    decreases |b|
  {
    if b == [] {
      assert b + t == t;
    } else {
      assert (b + t)[0] == b[0];
      assert (b + t)[1..] == b[1..] + t;
      TrimStartBlankPrefix(b[1..], t);
    }
  }

  /** A blank suffix is all that `TrimEnd` removes when what precedes it
      does not end with white space. */
  lemma {:induction false} TrimEndBlankSuffix(t: string, b: string)
    requires Blank(b) && (t == [] || !IsSpace(t[|t| - 1]))
    ensures TrimEnd(t + b) == t
    decreases |b|
  {
    if b == [] {
      assert t + b == t;
    } else {
      assert (t + b)[|t + b| - 1] == b[|b| - 1];
      assert (t + b)[..|t + b| - 1] == t + b[..|b| - 1];
      TrimEndBlankSuffix(t, b[..|b| - 1]);
    }
  }

  /** Trimming text padded with white space on both sides gives the text back. */
  lemma TrimPadded(lead: string, t: string, trail: string)
    requires Blank(lead) && Blank(trail) && IsTrimmed(t)
    ensures Trim(lead + t + trail) == t
  {
    if t == [] {
      BlankConcat(lead, trail);
      TrimEmptyIffBlank(lead + trail);
      assert lead + t + trail == lead + trail;
    } else {
      assert (t + trail)[0] == t[0];
      assert lead + t + trail == lead + (t + trail);
      TrimStartBlankPrefix(lead, t + trail);
      TrimEndBlankSuffix(t, trail);
    }
  }

  /** A non-empty run of white space before text that does not start with
      white space is exactly one field boundary: it yields the empty first
      field and nothing else. */
  lemma SplitAfterGap(b: string, t: string)
    requires b != [] && Blank(b) && (t == [] || !IsSpace(t[0]))
    ensures Split(b + t) == [""] + Split(t)
  {
    assert (b + t)[0] == b[0];
    TrimStartBlankPrefix(b, t);
  }

  /** Joined with any non-empty runs of white space, a non-empty list of
      words splits back into exactly those words: the tokeniser's round
      trip. */
  lemma {:induction false} SplitJoinRoundTrip(ws: seq<string>, gaps: seq<string>)
    requires ws != [] && |gaps| == |ws| - 1
    requires AreWords(ws) && AreGaps(gaps)
    ensures Split(Join(ws, gaps)) == ws
    decreases |ws|
  {
    if |ws| == 1 {
      SplitWordPrefix(ws[0], "");
      assert ws[0] + "" == ws[0];
    } else {
      var t := Join(ws[1..], gaps[1..]);
      assert AreWords(ws[1..]) && AreGaps(gaps[1..]) by {
        forall k | 0 <= k < |ws| - 1 ensures IsWord(ws[1..][k]) {
          assert ws[1..][k] == ws[k + 1];
        }
        forall k | 0 <= k < |gaps| - 1 ensures gaps[1..][k] != [] && Blank(gaps[1..][k]) {
          assert gaps[1..][k] == gaps[k + 1];
        }
      }
      SplitJoinRoundTrip(ws[1..], gaps[1..]);
      JoinStartsWithWord(ws[1..], gaps[1..]);
      assert IsWord(ws[0]) && gaps[0] != [] && Blank(gaps[0]);
      SplitAfterGap(gaps[0], t);
      assert ws[0] + gaps[0] + t == ws[0] + (gaps[0] + t);
      SplitWordPrefix(ws[0], gaps[0] + t);
      assert ws[0] + "" == ws[0];
      assert ws == [ws[0]] + ws[1..];
    }
  }

  /** A join of words starts and ends with a word character, so it is
      non-empty and trimmed. */
  lemma {:induction false} JoinStartsWithWord(ws: seq<string>, gaps: seq<string>)
    requires ws != [] && |gaps| == |ws| - 1
    requires AreWords(ws)
    ensures Join(ws, gaps) != [] && IsTrimmed(Join(ws, gaps))
    decreases |ws|
  {
    assert IsWord(ws[0]);
    if |ws| > 1 {
      assert AreWords(ws[1..]) by {
        forall k | 0 <= k < |ws| - 1 ensures IsWord(ws[1..][k]) {
          assert ws[1..][k] == ws[k + 1];
        }
      }
      JoinStartsWithWord(ws[1..], gaps[1..]);
      var t := Join(ws[1..], gaps[1..]);
      assert Join(ws, gaps) == ws[0] + gaps[0] + t;
      assert Join(ws, gaps)[0] == ws[0][0];
      assert Join(ws, gaps)[|Join(ws, gaps)| - 1] == t[|t| - 1];
    }
  }
}
