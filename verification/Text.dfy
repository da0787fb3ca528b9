/**
 * Character-level helpers the assembler's regular expressions and string
 * methods stand for: whitespace as Python's `str.isspace`, `strip`, the
 * comment split at the first `;`, ASCII upper-casing, the token split
 * `re.split(r"[,\s]+", ...)` and the label pattern `([^\s]+):`.
 */
module Text {
  import opened Diagnostics

  /** Python's `str.isspace()`; `\s` in a `str` pattern matches the same characters. */
  predicate IsSpace(c: char) {
    || ('\t' <= c <= '\r')
    || ('\U{1C}' <= c <= '\U{1F}')
    || c == ' ' || c == '\U{85}' || c == '\U{A0}' || c == '\U{1680}'
    || ('\U{2000}' <= c <= '\U{200A}')
    || c == '\U{2028}' || c == '\U{2029}' || c == '\U{202F}' || c == '\U{205F}' || c == '\U{3000}'
  }

  predicate NoSpace(s: string) {
    forall k :: 0 <= k < |s| ==> !IsSpace(s[k])
  }

  predicate AllSpace(s: string) {
    forall k :: 0 <= k < |s| ==> IsSpace(s[k])
  }

  /** `s.lstrip()`: the suffix of `s` left after dropping its leading whitespace. */
  function TrimStart(s: string): (r: string)
    ensures |r| <= |s| && r == s[|s| - |r|..]
    ensures AllSpace(s[..|s| - |r|])
    ensures r == [] || !IsSpace(r[0])
  {
    if |s| > 0 && IsSpace(s[0]) then
      var r := TrimStart(s[1..]);
      TrimStartStep(s, r);
      r
    else s
  }

  /** Dropping one leading space before the rest is trimmed keeps the trimmed part a suffix after a run of spaces. */
  lemma TrimStartStep(s: string, r: string)
    requires |s| > 0 && IsSpace(s[0])
    requires |r| <= |s| - 1 && r == s[1..][|s| - 1 - |r|..] && AllSpace(s[1..][..|s| - 1 - |r|])
    ensures r == s[|s| - |r|..] && AllSpace(s[..|s| - |r|])
  {
    assert s[1..][..|s| - 1 - |r|] == s[1..|s| - |r|];
    assert forall k :: 1 <= k < |s| - |r| ==> s[k] == s[1..|s| - |r|][k - 1];
  }

  /** `s.rstrip()`: the prefix of `s` left after dropping its trailing whitespace. */
  function TrimEnd(s: string): (r: string)
    ensures |r| <= |s| && r == s[..|r|]
    ensures forall k :: |r| <= k < |s| ==> IsSpace(s[k])
    ensures r == [] || !IsSpace(r[|r| - 1])
  {
    if |s| > 0 && IsSpace(s[|s| - 1]) then TrimEnd(s[..|s| - 1]) else s
  }

  /** `s.strip()`. */
  function Strip(s: string): (r: string)
    ensures |r| <= |s|
    ensures r == [] || (!IsSpace(r[0]) && !IsSpace(r[|r| - 1]))
    ensures r == [] <==> AllSpace(s)
  {
    var t := TrimStart(s);
    var r := TrimEnd(t);
    assert r == [] ==> AllSpace(s) by {
      if r == [] {
        forall k | 0 <= k < |s| ensures IsSpace(s[k]) {
          assert s[k] == s[..|s| - |t|][k];
        }
      }
    }
    r
  }

  /** Stripping leaves a string without whitespace unchanged. */
  lemma StripNoSpace(s: string)
    requires NoSpace(s)
    ensures Strip(s) == s
  {
    if |s| > 0 {
      assert !IsSpace(s[0]) && !IsSpace(s[|s| - 1]);
    }
  }

  /** `s.split(delim)[0]`: the text before the first occurrence of `delim`. */
  function BeforeFirst(s: string, delim: char): (r: string)
    ensures r <= s
    ensures delim !in r
    ensures |r| < |s| ==> s[|r|] == delim
  {
    if |s| == 0 then s
    else if s[0] == delim then []
    else [s[0]] + BeforeFirst(s[1..], delim)
  }

  /** The effect of `str.upper()` on one character, restricted to ASCII letters. */
  function UpperChar(c: char): char {
    if 'a' <= c <= 'z' then (c as int - 32) as char else c
  }

  function ToUpper(s: string): (r: string)
    ensures |r| == |s|
    ensures forall k :: 0 <= k < |s| ==> r[k] == UpperChar(s[k])
  {
    if |s| == 0 then [] else [UpperChar(s[0])] + ToUpper(s[1..])
  }

  /** A character of the class `[,\s]`. */
  predicate IsSeparator(c: char) {
    c == ',' || IsSpace(c)
  }

  predicate NoSeparator(s: string) {
    forall k :: 0 <= k < |s| ==> !IsSeparator(s[k])
  }

  /** The index of the first separator of `s`, or `|s|` when there is none. */
  function FirstSeparator(s: string): (i: nat)
    ensures i <= |s| && NoSeparator(s[..i])
    ensures i < |s| ==> IsSeparator(s[i])
  {
    if |s| == 0 || IsSeparator(s[0]) then 0
    else
      var i := 1 + FirstSeparator(s[1..]);
      assert s[..i] == [s[0]] + s[1..][..i - 1];
      i
  }

  /** The index just past the run of separators that starts at `i`. */
  function SkipSeparators(s: string, i: nat): (j: nat)
    requires i <= |s|
    ensures i <= j <= |s|
    ensures forall k :: i <= k < j ==> IsSeparator(s[k])
    ensures j < |s| ==> !IsSeparator(s[j])
    decreases |s| - i
  {
    if i < |s| && IsSeparator(s[i]) then SkipSeparators(s, i + 1) else i
  }

  /**
   * `re.split(r"[,\s]+", s)`: the pieces between maximal runs of commas and
   * whitespace. Only the first and the last piece can be empty (when `s`
   * starts or ends with a separator).
   */
  function SplitOnSeparators(s: string): (parts: seq<string>)
    ensures |parts| >= 1
    ensures forall k :: 0 <= k < |parts| ==> NoSeparator(parts[k])
    ensures forall k :: 0 < k < |parts| - 1 ==> parts[k] != []
    ensures |s| > 0 && !IsSeparator(s[0]) ==> parts[0] != []
    decreases |s|
  {
    var i := FirstSeparator(s);
    if i == |s| then
      assert s[..i] == s;
      [s]
    else
      var j := SkipSeparators(s, i + 1);
      [s[..i]] + SplitOnSeparators(s[j..])
  }

  /** A non-empty run of commas and whitespace. */
  predicate SeparatorRun(t: string) {
    t != [] && forall k :: 0 <= k < |t| ==> IsSeparator(t[k])
  }

  /** The maximal separator runs of `s` that `SplitOnSeparators` cuts at, in order. */
  function SeparatorRuns(s: string): (runs: seq<string>)
    ensures forall k :: 0 <= k < |runs| ==> SeparatorRun(runs[k])
    decreases |s|
  {
    var i := FirstSeparator(s);
    if i == |s| then []
    else
      var j := SkipSeparators(s, i + 1);
      [s[i..j]] + SeparatorRuns(s[j..])
  }

  /** `parts[0] + runs[0] + parts[1] + … + parts[|runs|]`. */
  function Interleave(parts: seq<string>, runs: seq<string>): string
    requires |parts| == |runs| + 1
    decreases |runs|
  {
    if |runs| == 0 then parts[0] else parts[0] + runs[0] + Interleave(parts[1..], runs[1..])
  }

  /**
   * The pieces of a split, put back together with the separator runs cut
   * out between them, are the text that was split: nothing is lost,
   * reordered or invented, and every cut was at a non-empty run of separators.
   */
  lemma {:induction false} SplitRebuilds(s: string)
    ensures |SplitOnSeparators(s)| == |SeparatorRuns(s)| + 1
    ensures Interleave(SplitOnSeparators(s), SeparatorRuns(s)) == s
    decreases |s|
  {
    var i := FirstSeparator(s);
    if i == |s| {
      assert s[..i] == s;
    } else {
      var j := SkipSeparators(s, i + 1);
      SplitRebuilds(s[j..]);
      SplitAtFirstRun(s, i, j);
      RunsAtFirstRun(s, i, j);
      ThreeSlices(s, i, j);
      InterleaveCons(s[..i], s[i..j], SplitOnSeparators(s[j..]), SeparatorRuns(s[j..]));
    }
  }

  /** The first piece, cut off the front of a text that holds a separator. */
  lemma SplitAtFirstRun(s: string, i: nat, j: nat)
    requires i == FirstSeparator(s) < |s| && j == SkipSeparators(s, i + 1)
    ensures SplitOnSeparators(s) == [s[..i]] + SplitOnSeparators(s[j..])
  {
  }

  /** The first separator run, cut off the front of a text that holds a separator. */
  lemma RunsAtFirstRun(s: string, i: nat, j: nat)
    requires i == FirstSeparator(s) < |s| && j == SkipSeparators(s, i + 1)
    ensures SeparatorRuns(s) == [s[i..j]] + SeparatorRuns(s[j..])
  {
  }

  /** A text is its three slices at `i` and `j`, in order. */
  lemma ThreeSlices(s: string, i: nat, j: nat)
    requires i <= j <= |s|
    ensures s == s[..i] + s[i..j] + s[j..]
  {
  }

  /** Interleaving one more piece and run in front. */
  lemma InterleaveCons(part: string, run: string, parts: seq<string>, runs: seq<string>)
    requires |parts| == |runs| + 1
    ensures Interleave([part] + parts, [run] + runs) == part + run + Interleave(parts, runs)
  {
    assert ([part] + parts)[1..] == parts;
    assert ([run] + runs)[1..] == runs;
  }

  /** A word with a separator right after it is found in full. */
  lemma {:induction false} FirstSeparatorAfterWord(word: string, tail: string)
    requires NoSeparator(word) && tail != [] && IsSeparator(tail[0])
    ensures FirstSeparator(word + tail) == |word|
    decreases |word|
  {
    if |word| > 0 {
      assert (word + tail)[1..] == word[1..] + tail;
      FirstSeparatorAfterWord(word[1..], tail);
    } else {
      assert word + tail == tail;
    }
  }

  /** A word, one separator, then text that starts with a non-separator: the word is the first piece. */
  lemma SplitAfterWord(word: string, sep: char, rest: string)
    requires NoSeparator(word) && IsSeparator(sep)
    requires rest != [] && !IsSeparator(rest[0])
    ensures SplitOnSeparators(word + [sep] + rest) == [word] + SplitOnSeparators(rest)
  {
    var s := word + [sep] + rest;
    assert s == word + ([sep] + rest);
    FirstSeparatorAfterWord(word, [sep] + rest);
    assert SkipSeparators(s, |word| + 1) == |word| + 1;
    assert s[..|word|] == word && s[|word| + 1..] == rest;
  }

  /** `",".join(parts)`. */
  function JoinComma(parts: seq<string>): (s: string)
    requires |parts| >= 1
    decreases |parts|
  {
    if |parts| == 1 then parts[0] else parts[0] + "," + JoinComma(parts[1..])
  }

  /** Parts that `SplitOnSeparators` can produce: no separators, and only the ends may be empty. */
  predicate SplitShaped(parts: seq<string>) {
    && |parts| >= 1
    && (forall k :: 0 <= k < |parts| ==> NoSeparator(parts[k]))
    && (forall k :: 0 < k < |parts| - 1 ==> parts[k] != [])
  }

  lemma {:induction false} JoinCommaStart(parts: seq<string>)
    requires SplitShaped(parts)
    requires parts[0] != [] || |parts| == 1
    ensures JoinComma(parts) == [] || !IsSeparator(JoinComma(parts)[0])
  {
    if |parts| > 1 {
      assert JoinComma(parts)[0] == parts[0][0];
    }
  }

  /** Re-splitting a comma-joined line gives back the pieces it was joined from. */
  lemma {:induction false} SplitJoinComma(parts: seq<string>)
    requires SplitShaped(parts)
    ensures SplitOnSeparators(JoinComma(parts)) == parts
    decreases |parts|
  {
    var s := JoinComma(parts);
    if |parts| == 1 {
      assert FirstSeparator(s) == |s|;
    } else {
      var p0, rest := parts[0], parts[1..];
      var t := JoinComma(rest);
      assert s == p0 + "," + t;
      assert SplitShaped(rest);
      var i := FirstSeparator(s);
      assert s[|p0|] == ',';
      if i < |p0| {
        assert false;
      } else if i > |p0| {
        assert false;
      }
      JoinCommaStart(rest);
      var j := SkipSeparators(s, i + 1);
      if j > |p0| + 1 {
        assert false;
      }
      assert s[j..] == t;
      assert s[..i] == p0;
      SplitJoinComma(rest);
    }
  }

  /** The length of the leading run of non-whitespace characters of `s`. */
  function RunLength(s: string): (n: nat)
    ensures n <= |s| && NoSpace(s[..n])
    ensures n < |s| ==> IsSpace(s[n])
  {
    if |s| == 0 || IsSpace(s[0]) then 0
    else
      var n := 1 + RunLength(s[1..]);
      assert s[..n] == [s[0]] + s[1..][..n - 1];
      n
  }

  /** The index of the last occurrence of `c` in `s`. */
  function LastIndexOf(s: string, c: char): (r: Option<nat>)
    ensures r.Some? ==> r.value < |s| && s[r.value] == c && c !in s[r.value + 1..]
    ensures r.None? ==> c !in s
  {
    if |s| == 0 then None
    else if s[|s| - 1] == c then Some(|s| - 1)
    else
      var r := LastIndexOf(s[..|s| - 1], c);
      assert r.None? ==> s == s[..|s| - 1] + [s[|s| - 1]];
      assert r.Some? ==> s[r.value + 1..] == s[..|s| - 1][r.value + 1..] + [s[|s| - 1]];
      r
  }

  /** The labels a line defines, in order, and the text left once they are removed. */
  datatype LabelScan = LabelScan(labels: seq<string>, residual: string)

  /**
   * `re.findall(r"([^\s]+):", s)` and `re.sub(r"[^\s]+:", "", s)` in one pass.
   * A match never spans whitespace, so each whitespace-delimited run is
   * treated on its own: the greedy `[^\s]+` backtracks to the run's last
   * colon, which must have at least one character before it; the label is
   * the text before that colon and only the text after it stays in place.
   */
  function ScanLabels(s: string): (scan: LabelScan)
    ensures forall k :: 0 <= k < |scan.labels| ==> scan.labels[k] != [] && NoSpace(scan.labels[k])
    decreases |s|
  {
    if |s| == 0 then LabelScan([], [])
    else if IsSpace(s[0]) then
      var rest := ScanLabels(s[1..]);
      LabelScan(rest.labels, [s[0]] + rest.residual)
    else
      var n := RunLength(s);
      var run := s[..n];
      var rest := ScanLabels(s[n..]);
      match LastIndexOf(run, ':')
      case Some(q) =>
        if q >= 1 then
          assert NoSpace(run[..q]) by {
            forall k | 0 <= k < q ensures !IsSpace(run[..q][k]) {
              assert run[..q][k] == run[k];
            }
          }
          LabelScan([run[..q]] + rest.labels, run[q + 1..] + rest.residual)
        else LabelScan(rest.labels, run + rest.residual)
      case None => LabelScan(rest.labels, run + rest.residual)
  }
}
