/**
 * Line-break handling shared by the three scrapers: canonicalising line
 * breaks to "\n", the CSV writer's "\r\n" form, the per-line strip of the
 * structured description, and the ". " to ".\r\n" rewrite.
 */
module Lines {

  import opened Text

  /** `s.replace('\r\n', '\n').replace('\r', '\n')`. */
  function NormalizeNewlines(s: string): (r: string)
    ensures '\r' !in r
  {
    var r := ReplaceAll(ReplaceAll(s, "\r\n", "\n"), "\r", "\n");
    ReplaceRemovesChar(ReplaceAll(s, "\r\n", "\n"), '\r', "\n");
    r
  }

  /** Text without '\r' is already canonical. */
  lemma NormalizeWithoutCr(s: string)
    requires '\r' !in s
    ensures NormalizeNewlines(s) == s
  {
    ReplaceAbsent(s, "\r\n", "\n");
    ReplaceAbsent(s, "\r", "\n");
  }

  lemma NormalizeIdempotent(s: string)
    ensures NormalizeNewlines(NormalizeNewlines(s)) == NormalizeNewlines(s)
  {
    NormalizeWithoutCr(NormalizeNewlines(s));
  }

  // ---------------------------------------------------------------- CRLF

  /** Every '\r' is followed by '\n' and every '\n' follows a '\r'. */
  predicate CrLfForm(s: string) {
    forall i {:trigger s[i]} :: 0 <= i < |s| ==>
      (s[i] == '\r' ==> i + 1 < |s| && s[i + 1] == '\n') &&
      (s[i] == '\n' ==> 0 < i && s[i - 1] == '\r')
  }

  lemma CrLfFormAt(s: string, i: nat)
    requires CrLfForm(s) && i < |s|
    ensures s[i] == '\r' ==> i + 1 < |s| && s[i + 1] == '\n'
    ensures s[i] == '\n' ==> 0 < i && s[i - 1] == '\r'
  {
  }

  /**
   * The description cell of the CSV writer in scraper3.py and all_scraper.py:
   * canonicalise, then turn every '\n' into "\r\n".
   */
  function CrLf(s: string): string {
    ReplaceAll(NormalizeNewlines(s), "\n", "\r\n")
  }

  lemma {:induction false} ExpandIsCrLfForm(t: string)
    requires '\r' !in t
    ensures CrLfForm(ReplaceAll(t, "\n", "\r\n"))
    decreases |t|
  {
    if t != [] {
      var rest := ReplaceAll(t[1..], "\n", "\r\n");
      ExpandIsCrLfForm(t[1..]);
      var p := if t[0] == '\n' then "\r\n" else [t[0]];
      var u := p + rest;
      assert ReplaceAll(t, "\n", "\r\n") == u;
      forall i | 0 <= i < |u|
        ensures (u[i] == '\r' ==> i + 1 < |u| && u[i + 1] == '\n')
        ensures (u[i] == '\n' ==> 0 < i && u[i - 1] == '\r')
      {
        if i >= |p| {
          var j := i - |p|;
          assert u[i] == rest[j];
          CrLfFormAt(rest, j);
          if u[i] == '\r' {
            assert u[i + 1] == rest[j + 1];
          }
          if u[i] == '\n' {
            assert u[i - 1] == rest[j - 1];
          }
        }
      }
    }
  }

  /** Collapsing "\r\n" back undoes the expansion of '\n'. */
  lemma {:induction false} CollapseUndoesExpand(t: string)
    requires '\r' !in t
    ensures ReplaceAll(ReplaceAll(t, "\n", "\r\n"), "\r\n", "\n") == t
    decreases |t|
  {
    if t != [] {
      var rest := ReplaceAll(t[1..], "\n", "\r\n");
      CollapseUndoesExpand(t[1..]);
      if t[0] == '\n' {
        var u := "\r\n" + rest;
        assert ReplaceAll(t, "\n", "\r\n") == u;
        assert StartsWith(u, "\r\n");
        assert u[2..] == rest;
        assert t == "\n" + t[1..];
      } else {
        var u := [t[0]] + rest;
        assert ReplaceAll(t, "\n", "\r\n") == u;
        assert !StartsWith(u, "\r\n");
        assert u[1..] == rest;
        assert t == [t[0]] + t[1..];
      }
    }
  }

  /** The CSV description cell has every line break as "\r\n" and no lone '\r' or '\n'. */
  lemma CrLfWellFormed(s: string)
    ensures CrLfForm(CrLf(s))
  {
    ExpandIsCrLfForm(NormalizeNewlines(s));
  }

  /** Canonicalising the cell gives back the canonical text: no line break is lost or added. */
  lemma CrLfReadsBack(s: string)
    ensures NormalizeNewlines(CrLf(s)) == NormalizeNewlines(s)
  {
    var t := NormalizeNewlines(s);
    var u := ReplaceAll(t, "\n", "\r\n");
    CollapseUndoesExpand(t);
    ReplaceAbsent(t, "\r", "\n");
    assert NormalizeNewlines(u) == t;
  }

  /** Encoding the description cell twice gives the same cell. */
  lemma CrLfIdempotent(s: string)
    ensures CrLf(CrLf(s)) == CrLf(s)
  {
    CrLfReadsBack(s);
  }

  // ---------------------------------------------------------------- per-line strip

  /**
   * The description cleanup of import.py: canonicalise line breaks, split on
   * '\n', strip every line and join the lines with '\n' again.
   */
  function CleanLines(s: string): string {
    Join("\n", StripEach(SplitOn(NormalizeNewlines(s), {'\n'})))
  }

  function StripEach(lines: seq<string>): (r: seq<string>)
    ensures |r| == |lines|
    ensures forall k :: 0 <= k < |r| ==> r[k] == Strip(lines[k])
  {
    seq(|lines|, k requires 0 <= k < |lines| => Strip(lines[k]))
  }

  /** Number of lines, as `len(s.split('\n'))`. */
  function LineCount(s: string): nat {
    |SplitOn(s, {'\n'})|
  }

  lemma CleanLinesParts(s: string)
    ensures SplitOn(CleanLines(s), {'\n'}) == StripEach(SplitOn(NormalizeNewlines(s), {'\n'}))
    ensures '\r' !in CleanLines(s)
  {
    var parts := SplitOn(NormalizeNewlines(s), {'\n'});
    var lines := StripEach(parts);
    SplitOnPiecesAvoidSeparators(NormalizeNewlines(s), {'\n'});
    forall k | 0 <= k < |lines| ensures '\n' !in lines[k] && '\r' !in lines[k] {
      StripIsSlice(parts[k]);
      assert '\r' !in parts[k] by {
        assert forall x :: x in parts[k] ==> x in NormalizeNewlines(s) by {
          SplitOnPiecesWithin(NormalizeNewlines(s), {'\n'});
        }
      }
    }
    SplitOnJoin(lines, '\n');
    JoinAvoids("\n", lines, '\r');
  }

  lemma StripIsSlice(s: string)
    ensures forall x :: x in Strip(s) ==> x in s
  {
    var a, b :| 0 <= a <= b <= |s| && Strip(s) == s[a..b];
  }

  /** The cleanup leaves no '\r' and keeps the number of lines. */
  lemma CleanLinesShape(s: string)
    ensures '\r' !in CleanLines(s)
    ensures LineCount(CleanLines(s)) == LineCount(NormalizeNewlines(s))
  {
    CleanLinesParts(s);
  }

  /** Cleaning an already cleaned description changes nothing. */
  lemma CleanLinesIdempotent(s: string)
    ensures CleanLines(CleanLines(s)) == CleanLines(s)
  {
    var c := CleanLines(s);
    CleanLinesParts(s);
    NormalizeWithoutCr(c);
    var lines := StripEach(SplitOn(NormalizeNewlines(s), {'\n'}));
    forall k | 0 <= k < |lines| ensures Strip(lines[k]) == lines[k] {
      StripOfStripped(lines[k]);
    }
    assert StripEach(lines) == lines;
    assert NormalizeNewlines(c) == c;
    assert SplitOn(c, {'\n'}) == lines;
    assert CleanLines(c) == Join("\n", StripEach(lines));
  }

  // ---------------------------------------------------------------- sentence breaks

  /** `description.replace('. ', '.\r\n').strip()`. */
  function BreakSentences(s: string): string {
    Strip(ReplaceAll(s, ". ", ".\r\n"))
  }

  /** The replace leaves no ". " behind. */
  lemma {:induction false} NoDotSpaceAfterReplace(s: string)
    ensures !Contains(ReplaceAll(s, ". ", ".\r\n"), ". ")
    decreases |s|
  {
    if s != [] {
      var rest := ReplaceAll(s[1..], ". ", ".\r\n");
      NoDotSpaceAfterReplace(s[1..]);
      if StartsWith(s, ". ") {
        var u := ".\r\n" + ReplaceAll(s[2..], ". ", ".\r\n");
        NoDotSpaceAfterReplace(s[2..]);
        NoDotSpaceCons(".\r\n", ReplaceAll(s[2..], ". ", ".\r\n"));
      } else {
        NoDotSpaceStep(s, rest);
      }
    }
  }

  lemma NoDotSpaceCons(p: string, rest: string)
    requires p == ".\r\n"
    requires !Contains(rest, ". ")
    ensures !Contains(p + rest, ". ")
  {
    var u := p + rest;
    if i :| 0 <= i <= |u| && OccursAt(u, ". ", i) {
      assert u[i] == '.' && u[i + 1] == ' ';
      if i >= 3 {
        assert OccursAt(rest, ". ", i - 3) by {
          assert rest[i - 3..i - 1] == u[i..i + 2];
        }
      }
    }
  }

  lemma NoDotSpaceStep(s: string, rest: string)
    requires s != [] && !StartsWith(s, ". ")
    requires rest == ReplaceAll(s[1..], ". ", ".\r\n")
    requires !Contains(rest, ". ")
    ensures !Contains(ReplaceAll(s, ". ", ".\r\n"), ". ")
  {
    var u := [s[0]] + rest;
    assert ReplaceAll(s, ". ", ".\r\n") == u;
    if i :| 0 <= i <= |u| && OccursAt(u, ". ", i) {
      if i >= 1 {
        assert OccursAt(rest, ". ", i - 1) by {
          assert rest[i - 1..i + 1] == u[i..i + 2];
        }
      } else {
        ReplaceFirstChar(s[1..], ". ", ".\r\n");
        assert false;
      }
    }
  }

  /** The replacement of a text starting with ' ' starts with ' '. */
  lemma ReplaceFirstChar(s: string, pat: string, rep: string)
    requires pat == ". " && rep == ".\r\n"
    ensures ReplaceAll(s, pat, rep) != [] ==> s != [] && (ReplaceAll(s, pat, rep)[0] == ' ' ==> s[0] == ' ')
    ensures s != [] && s[0] == ' ' ==> ReplaceAll(s, pat, rep) != [] && ReplaceAll(s, pat, rep)[0] == ' '
  {
  }

  /** The stored structured description never contains ". ". */
  lemma BreakSentencesNoDotSpace(s: string)
    ensures !Contains(BreakSentences(s), ". ")
  {
    var u := ReplaceAll(s, ". ", ".\r\n");
    NoDotSpaceAfterReplace(s);
    var a, b :| 0 <= a <= b <= |u| && Strip(u) == u[a..b];
    if Contains(u[a..b], ". ") {
      ContainsInSlice(u, a, b, ". ");
    }
  }
}
