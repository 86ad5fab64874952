/**
 * The string primitives the scrapers use from Python's `str` and `re`:
 * whitespace, lower-casing, strip, substring search, replace, split,
 * join, whitespace collapsing and integer formatting.
 */
module Text {

  import opened Common

  /** Python's `str.isspace()`; `\s` in a str pattern matches the same characters. */
  predicate IsSpace(c: char) {
    || c == ' '
    || '\t' <= c <= '\r'
    || '\U{1C}' <= c <= '\U{1F}'
    || c == '\U{85}' || c == '\U{A0}' || c == '\U{1680}'
    || '\U{2000}' <= c <= '\U{200A}'
    || c == '\U{2028}' || c == '\U{2029}' || c == '\U{202F}' || c == '\U{205F}' || c == '\U{3000}'
  }

  /** `str.lower()` on one character, for ASCII and the Latin-1 capitals. */
  function LowerChar(c: char): char {
    if 'A' <= c <= 'Z' || ('À' <= c <= 'Þ' && c != '×') then (c as int + 32) as char else c
  }

  function Lower(s: string): (r: string)
    ensures |r| == |s|
    ensures forall i :: 0 <= i < |s| ==> r[i] == LowerChar(s[i])
  {
    seq(|s|, i requires 0 <= i < |s| => LowerChar(s[i]))
  }

  // ---------------------------------------------------------------- strip

  function FirstNonSpace(s: string, i: nat): (k: nat)
    requires i <= |s|
    ensures i <= k <= |s|
    ensures k < |s| ==> !IsSpace(s[k])
    ensures forall j :: i <= j < k ==> IsSpace(s[j])
    decreases |s| - i
  {
    if i == |s| || !IsSpace(s[i]) then i else FirstNonSpace(s, i + 1)
  }

  function EndNonSpace(s: string, lo: nat, j: nat): (k: nat)
    requires lo <= j <= |s|
    ensures lo <= k <= j
    ensures k > lo ==> !IsSpace(s[k - 1])
    ensures forall m :: k <= m < j ==> IsSpace(s[m])
    decreases j
  {
    if j == lo || !IsSpace(s[j - 1]) then j else EndNonSpace(s, lo, j - 1)
  }

  /** No whitespace at either end. */
  predicate Stripped(s: string) {
    s == [] || (!IsSpace(s[0]) && !IsSpace(s[|s| - 1]))
  }

  /** Python's `str.strip()`: the slice of `s` between its leading and trailing whitespace. */
  function Strip(s: string): (r: string)
    ensures Stripped(r)
    ensures exists a, b :: 0 <= a <= b <= |s| && r == s[a..b]
    ensures r == [] <==> forall i :: 0 <= i < |s| ==> IsSpace(s[i])
  {
    var a := FirstNonSpace(s, 0);
    var b := EndNonSpace(s, a, |s|);
    assert b == a ==> forall i :: 0 <= i < |s| ==> IsSpace(s[i]);
    s[a..b]
  }

  lemma StripOfStripped(s: string)
    requires Stripped(s)
    ensures Strip(s) == s
  {
    if s != [] {
      assert FirstNonSpace(s, 0) == 0;
      assert EndNonSpace(s, 0, |s|) == |s|;
    }
  }

  lemma StripIdempotent(s: string)
    ensures Strip(Strip(s)) == Strip(s)
  {
    StripOfStripped(Strip(s));
  }

  // ---------------------------------------------------------------- search

  predicate StartsWith(s: string, p: string) {
    |p| <= |s| && s[..|p|] == p
  }

  /** Python's `t in s` for two strings. */
  predicate Contains(s: string, t: string) {
    exists i :: 0 <= i <= |s| && OccursAt(s, t, i)
  }

  /** `t` occurs in `s` starting at index `i`. */
  predicate OccursAt(s: string, t: string, i: int) {
    0 <= i && i + |t| <= |s| && s[i..i + |t|] == t
  }

  /** `c in s` for a one-character needle. */
  lemma ContainsChar(s: string, c: char)
    ensures Contains(s, [c]) <==> c in s
  {
    if c in s {
      var i :| 0 <= i < |s| && s[i] == c;
      assert OccursAt(s, [c], i);
    }
    if Contains(s, [c]) {
      var i :| 0 <= i <= |s| && OccursAt(s, [c], i);
      assert s[i] == s[i..i + 1][0];
    }
  }

  // A decision procedure for `Contains(Lower(s), t)` on literal strings: it
  // inspects four positions per step, so that the verifier can evaluate it.

  predicate LowerMatchFrom(s: string, t: string, i: nat, j: nat)
    requires i + |t| <= |s| && j <= |t|
    decreases |t| - j
  {
    j == |t| || (LowerChar(s[i + j]) == t[j] && LowerMatchFrom(s, t, i, j + 1))
  }

  predicate LowerMatchAt(s: string, t: string, i: nat) {
    i + |t| <= |s| && LowerMatchFrom(s, t, i, 0)
  }

  predicate ScanLower(s: string, t: string, i: nat)
    decreases |s| - i
  {
    i + |t| <= |s| &&
    (LowerMatchAt(s, t, i) || LowerMatchAt(s, t, i + 1) || LowerMatchAt(s, t, i + 2) ||
     LowerMatchAt(s, t, i + 3) || ScanLower(s, t, i + 4))
  }

  lemma {:induction false} LowerMatchFromMeaning(s: string, t: string, i: nat, j: nat)
    requires i + |t| <= |s| && j <= |t|
    ensures LowerMatchFrom(s, t, i, j) <==> forall m :: j <= m < |t| ==> LowerChar(s[i + m]) == t[m]
    decreases |t| - j
  {
    if j < |t| {
      LowerMatchFromMeaning(s, t, i, j + 1);
    }
  }

  lemma LowerMatchAtMeaning(s: string, t: string, i: nat)
    ensures LowerMatchAt(s, t, i) <==> i + |t| <= |s| && Lower(s)[i..i + |t|] == t
  {
    if i + |t| <= |s| {
      LowerMatchFromMeaning(s, t, i, 0);
      if LowerMatchAt(s, t, i) {
        assert Lower(s)[i..i + |t|] == t;
      }
    }
  }

  lemma {:induction false} ScanLowerMeaning(s: string, t: string, i: nat)
    ensures ScanLower(s, t, i) <==> exists p :: i <= p && OccursAt(Lower(s), t, p)
    decreases |s| - i
  {
    if i + |t| <= |s| {
      ScanLowerMeaning(s, t, i + 4);
      LowerMatchOccurs(s, t, i);
      LowerMatchOccurs(s, t, i + 1);
      LowerMatchOccurs(s, t, i + 2);
      LowerMatchOccurs(s, t, i + 3);
      if p :| i <= p && OccursAt(Lower(s), t, p) {
        if p < i + 4 {
          LowerMatchOccurs(s, t, p);
        }
      }
    }
  }

  lemma LowerMatchOccurs(s: string, t: string, p: nat)
    ensures LowerMatchAt(s, t, p) <==> OccursAt(Lower(s), t, p)
  {
    LowerMatchAtMeaning(s, t, p);
  }

  /** The scan decides whether `t` occurs in the lower-cased `s`. */
  lemma ScanLowerDecides(s: string, t: string)
    ensures ScanLower(s, t, 0) <==> Contains(Lower(s), t)
  {
    ScanLowerMeaning(s, t, 0);
  }

  /** No character of `s` from index `i` on lower-cases into `cs`; four positions per step, like the scan. */
  predicate LowerAvoids(s: string, cs: set<char>, i: nat)
    decreases |s| - i
  {
    i >= |s| ||
    (LowerChar(s[i]) !in cs &&
     (i + 1 >= |s| || LowerChar(s[i + 1]) !in cs) &&
     (i + 2 >= |s| || LowerChar(s[i + 2]) !in cs) &&
     (i + 3 >= |s| || LowerChar(s[i + 3]) !in cs) &&
     LowerAvoids(s, cs, i + 4))
  }

  lemma {:induction false} LowerAvoidsMeaning(s: string, cs: set<char>, i: nat)
    requires LowerAvoids(s, cs, i)
    ensures forall j :: i <= j < |s| ==> Lower(s)[j] !in cs
    decreases |s| - i
  {
    if i < |s| {
      LowerAvoidsMeaning(s, cs, i + 4);
    }
  }

  /** When the lower-cased `s` avoids `cs`, none of its characters is in `cs`. */
  lemma LowerLacks(s: string, cs: set<char>)
    requires LowerAvoids(s, cs, 0)
    ensures forall c :: c in cs ==> c !in Lower(s)
  {
    LowerAvoidsMeaning(s, cs, 0);
  }

  /** The character `str.lower()` maps to `c`, other than `c` itself (or `c` when there is none). */
  function UpperChar(c: char): char {
    if 'a' <= c <= 'z' || ('à' <= c <= 'þ' && c != '÷') then (c as int - 32) as char else c
  }

  lemma LowerPreimage(x: char)
    ensures x == LowerChar(x) || x == UpperChar(LowerChar(x))
  {
  }

  /** A character absent from `s` in both cases is absent from its lower-casing. */
  lemma AbsentFromLower(s: string, c: char)
    requires c !in s && UpperChar(c) !in s
    ensures c !in Lower(s)
  {
    forall i | 0 <= i < |s| ensures Lower(s)[i] != c {
      LowerPreimage(s[i]);
    }
  }

  /** Every character of a text that occurs in `s` occurs in `s`. */
  lemma CharsOfContained(s: string)
    ensures forall t, c :: Contains(s, t) && c in t ==> c in s
  {
    forall t, c | Contains(s, t) && c in t ensures c in s {
      var i :| 0 <= i <= |s| && OccursAt(s, t, i);
      var m :| 0 <= m < |t| && t[m] == c;
      assert s[i..i + |t|][m] == s[i + m];
    }
  }

  /** A text occurs in itself. */
  /**
   * `t` cannot occur in `l`: its character at `k` is `c`, which `l` lacks,
   * or it is longer than `l`, or it is already known not to occur.
   */
  predicate Excluded(l: string, t: string, c: char, k: nat) {
    (k < |t| && t[k] == c && c !in l) || |t| > |l| || !Contains(l, t)
  }

  lemma ExcludedMeaning(l: string, t: string, c: char, k: nat)
    requires Excluded(l, t, c, k)
    ensures !Contains(l, t)
  {
    if k < |t| && t[k] == c && c !in l {
      CharsOfContained(l);
    }
  }

  lemma ContainsSelf(s: string)
    ensures Contains(s, s)
  {
    assert OccursAt(s, s, 0);
  }

  // ---------------------------------------------------------------- replace

  /** Python's `s.replace(pat, rep)`: left to right, non-overlapping. */
  function ReplaceAll(s: string, pat: string, rep: string): string
    requires pat != []
    decreases |s|
  {
    if s == [] then []
    else if StartsWith(s, pat) then rep + ReplaceAll(s[|pat|..], pat, rep)
    else [s[0]] + ReplaceAll(s[1..], pat, rep)
  }

  /** Replacing a pattern whose first character does not occur changes nothing. */
  lemma {:induction false} ReplaceAbsent(s: string, pat: string, rep: string)
    requires pat != [] && pat[0] !in s
    ensures ReplaceAll(s, pat, rep) == s
    decreases |s|
  {
    if s != [] {
      assert s[0] != pat[0];
      ReplaceAbsent(s[1..], pat, rep);
    }
  }

  /** Replacing every occurrence of one character by text without it removes that character. */
  lemma {:induction false} ReplaceRemovesChar(s: string, c: char, rep: string)
    requires c !in rep
    ensures c !in ReplaceAll(s, [c], rep)
    decreases |s|
  {
    if s != [] {
      ReplaceRemovesChar(s[1..], c, rep);
    }
  }

  /** Replacing by text that avoids a character `d` introduces no `d`. */
  lemma {:induction false} ReplaceKeepsAbsent(s: string, pat: string, rep: string, d: char)
    requires pat != [] && d !in s && d !in rep
    ensures d !in ReplaceAll(s, pat, rep)
    decreases |s|
  {
    if s != [] {
      if StartsWith(s, pat) {
        ReplaceKeepsAbsent(s[|pat|..], pat, rep, d);
      } else {
        ReplaceKeepsAbsent(s[1..], pat, rep, d);
      }
    }
  }

  // ---------------------------------------------------------------- split and join

  /** `str.join`: the parts with `sep` between consecutive ones. */
  function Join(sep: string, parts: seq<string>): string
    decreases |parts|
  {
    if |parts| == 0 then ""
    else if |parts| == 1 then parts[0]
    else parts[0] + sep + Join(sep, parts[1..])
  }

  /**
   * Python's `re.split('[...]', s)` for a set of one-character separators
   * (and `s.split(c)` when the set is `{c}`): always at least one part.
   */
  function SplitOn(s: string, seps: set<char>): (parts: seq<string>)
    ensures |parts| >= 1
    decreases |s|
  {
    if s == [] then [""]
    else
      var rest := SplitOn(s[1..], seps);
      if s[0] in seps then [""] + rest else [[s[0]] + rest[0]] + rest[1..]
  }

  /** The pieces never contain a separator. */
  lemma {:induction false} SplitOnPiecesAvoidSeparators(s: string, seps: set<char>)
    ensures forall k, c :: 0 <= k < |SplitOn(s, seps)| && c in seps ==> c !in SplitOn(s, seps)[k]
    decreases |s|
  {
    if s != [] {
      SplitOnPiecesAvoidSeparators(s[1..], seps);
    }
  }

  /** A text that occurs in a slice occurs in the whole. */
  lemma ContainsInSlice(u: string, a: nat, b: nat, t: string)
    requires a <= b <= |u|
    requires Contains(u[a..b], t)
    ensures Contains(u, t)
  {
    var v := u[a..b];
    var i :| 0 <= i <= |v| && OccursAt(v, t, i);
    assert i + |t| <= |v|;
    assert v[i..i + |t|] == t;
    forall m | 0 <= m < |t| ensures u[a + i + m] == t[m] {
      assert v[i..i + |t|][m] == v[i + m];
    }
    assert u[a + i..a + i + |t|] == t;
    assert OccursAt(u, t, a + i);
  }
  /** Every character of a piece occurs in the split text. */
  lemma {:induction false} SplitOnPiecesWithin(s: string, seps: set<char>)
    ensures forall k, x :: 0 <= k < |SplitOn(s, seps)| && x in SplitOn(s, seps)[k] ==> x in s
    decreases |s|
  {
    if s != [] {
      SplitOnPiecesWithin(s[1..], seps);
      var rest := SplitOn(s[1..], seps);
      var parts := SplitOn(s, seps);
      forall k, x | 0 <= k < |parts| && x in parts[k] ensures x in s {
        if s[0] in seps {
          assert parts == [""] + rest;
          if k > 0 {
            assert parts[k] == rest[k - 1];
            assert x in s[1..];
          }
        } else {
          assert parts == [[s[0]] + rest[0]] + rest[1..];
          if k == 0 {
            assert x == s[0] || x in rest[0];
            if x != s[0] {
              assert x in s[1..];
            }
          } else {
            assert parts[k] == rest[k];
            assert x in s[1..];
          }
        }
      }
    }
  }

  /** Joining the pieces of a one-character split with that character gives the text back. */
  lemma {:induction false} JoinSplitOn(s: string, c: char)
    ensures Join([c], SplitOn(s, {c})) == s
    decreases |s|
  {
    if s != [] {
      var rest := SplitOn(s[1..], {c});
      JoinSplitOn(s[1..], c);
      if s[0] == c {
        assert SplitOn(s, {c}) == [""] + rest;
      } else {
        var parts := [[s[0]] + rest[0]] + rest[1..];
        assert SplitOn(s, {c}) == parts;
        if |rest| > 1 {
          assert rest == [rest[0]] + rest[1..];
          assert Join([c], rest) == rest[0] + [c] + Join([c], rest[1..]);
          assert parts[1..] == rest[1..];
        }
      }
    }
  }

  /** Splitting a join of separator-free parts gives the parts back. */
  lemma {:induction false} SplitOnJoin(parts: seq<string>, c: char)
    requires |parts| >= 1
    requires forall k :: 0 <= k < |parts| ==> c !in parts[k]
    ensures SplitOn(Join([c], parts), {c}) == parts
    decreases |parts|, |parts[0]|
  {
    if |parts[0]| > 0 {
      var p0 := parts[0];
      var shorter := [p0[1..]] + parts[1..];
      assert Join([c], parts) == [p0[0]] + Join([c], shorter) by {
        if |parts| > 1 {
          assert Join([c], shorter) == p0[1..] + [c] + Join([c], parts[1..]);
        }
      }
      forall k | 0 <= k < |shorter| ensures c !in shorter[k] {
        if k == 0 {
          assert forall x :: x in p0[1..] ==> x in p0;
        } else {
          assert shorter[k] == parts[k];
        }
      }
      SplitOnJoin(shorter, c);
      var s := Join([c], parts);
      assert s[1..] == Join([c], shorter);
      assert s[0] == p0[0] && s[0] != c;
      assert SplitOn(s, {c}) == [[s[0]] + shorter[0]] + shorter[1..];
      assert [s[0]] + shorter[0] == p0;
      assert parts == [p0] + shorter[1..];
    } else if |parts| == 1 {
      assert Join([c], parts) == "";
    } else {
      var s := Join([c], parts);
      assert s == [c] + Join([c], parts[1..]);
      assert s[1..] == Join([c], parts[1..]);
      SplitOnJoin(parts[1..], c);
      assert parts == [""] + parts[1..];
    }
  }

  lemma {:induction false} JoinAvoids(sep: string, parts: seq<string>, d: char)
    requires d !in sep
    requires forall k :: 0 <= k < |parts| ==> d !in parts[k]
    ensures d !in Join(sep, parts)
    decreases |parts|
  {
    if |parts| > 1 {
      JoinAvoids(sep, parts[1..], d);
    }
  }

  // ---------------------------------------------------------------- whitespace runs

  /** `re.sub(r'\s+', ' ', s)`: every run of whitespace becomes one space. */
  function CollapseSpaces(s: string): (r: string)
    ensures forall i :: 0 <= i < |r| && IsSpace(r[i]) ==> r[i] == ' '
    ensures forall i :: 0 <= i < |r| - 1 ==> !(r[i] == ' ' && r[i + 1] == ' ')
    ensures r != [] ==> s != [] && (IsSpace(r[0]) <==> IsSpace(s[0]))
    decreases |s|
  {
    if s == [] then []
    else if IsSpace(s[0]) then
      var rest := FirstNonSpace(s, 0);
      " " + CollapseSpaces(s[rest..])
    else [s[0]] + CollapseSpaces(s[1..])
  }

  /** A text without whitespace runs or stray whitespace collapses to itself. */
  lemma {:induction false} CollapseOfCollapsed(s: string)
    requires forall i :: 0 <= i < |s| && IsSpace(s[i]) ==> s[i] == ' '
    requires forall i :: 0 <= i < |s| - 1 ==> !(s[i] == ' ' && s[i + 1] == ' ')
    ensures CollapseSpaces(s) == s
    decreases |s|
  {
    if s != [] {
      if IsSpace(s[0]) {
        var rest := FirstNonSpace(s, 0);
        assert rest == 1 by {
          if |s| > 1 {
            assert !IsSpace(s[1]);
          }
        }
        CollapseOfCollapsed(s[1..]);
        assert s == " " + s[1..];
      } else {
        CollapseOfCollapsed(s[1..]);
        assert s == [s[0]] + s[1..];
      }
    }
  }

  /**
   * Position `j` holds no comma, no whitespace but a single inner space;
   * positions past the end trivially qualify.
   */
  predicate PlainAt(s: string, j: nat) {
    j >= |s| ||
    (s[j] != ',' && (IsSpace(s[j]) ==> s[j] == ' ' && 0 < j && j + 1 < |s| && !IsSpace(s[j + 1])))
  }

  /** Every position from `i` on is plain; four positions per step, so that literals evaluate. */
  predicate PlainFrom(s: string, i: nat)
    decreases |s| - i
  {
    i >= |s| ||
    (PlainAt(s, i) && PlainAt(s, i + 1) && PlainAt(s, i + 2) && PlainAt(s, i + 3) && PlainFrom(s, i + 4))
  }

  lemma {:induction false} PlainFromMeaning(s: string, i: nat)
    requires PlainFrom(s, i)
    ensures forall j :: i <= j ==> PlainAt(s, j)
    decreases |s| - i
  {
    if i < |s| {
      PlainFromMeaning(s, i + 4);
      forall j | i <= j ensures PlainAt(s, j) {
        if j >= i + 4 {
          assert PlainAt(s, j);
        }
      }
    }
  }

  lemma PlainCollapses(s: string)
    requires forall j :: 0 <= j ==> PlainAt(s, j)
    ensures CollapseSpaces(s) == s
  {
    forall i | 0 <= i < |s| && IsSpace(s[i]) ensures s[i] == ' ' {
      assert PlainAt(s, i);
    }
    forall i | 0 <= i < |s| - 1 ensures !(s[i] == ' ' && s[i + 1] == ' ') {
      assert PlainAt(s, i);
    }
    CollapseOfCollapsed(s);
  }

  /** A plain text is its own collapsed, stripped form and has no comma. */
  lemma PlainIsSquashed(s: string)
    requires PlainFrom(s, 0)
    ensures Squash(s) == s && ',' !in s
  {
    PlainFromMeaning(s, 0);
    PlainCollapses(s);
    if s != [] {
      assert PlainAt(s, 0) && PlainAt(s, |s| - 1);
    }
    StripOfStripped(s);
    forall i | 0 <= i < |s| ensures s[i] != ',' {
      assert PlainAt(s, i);
    }
  }

  /** `re.sub(r'\s+', ' ', s).strip()`. */
  function Squash(s: string): string {
    Strip(CollapseSpaces(s))
  }

  /** Squashing a squashed text changes nothing. */
  lemma SquashIdempotent(s: string)
    ensures Squash(Squash(s)) == Squash(s)
  {
    var c := CollapseSpaces(s);
    var t := Strip(c);
    var a, b :| 0 <= a <= b <= |c| && t == c[a..b];
    assert forall i :: 0 <= i < |t| ==> t[i] == c[a + i];
    CollapseOfCollapsed(t);
    StripOfStripped(t);
  }

  // ---------------------------------------------------------------- integers

  function DigitChar(d: nat): char
    requires d < 10
  {
    ('0' as int + d) as char
  }

  function DigitsOf(n: nat): (r: string)
    ensures |r| >= 1
    ensures forall i :: 0 <= i < |r| ==> '0' <= r[i] <= '9'
    decreases n
  {
    if n < 10 then [DigitChar(n)] else DigitsOf(n / 10) + [DigitChar(n % 10)]
  }

  /** `str(n)` for a Python int. */
  function Decimal(n: int): string {
    if n < 0 then "-" + DigitsOf(-n) else DigitsOf(n)
  }

  predicate AllDigits(s: string) {
    forall i :: 0 <= i < |s| ==> '0' <= s[i] <= '9'
  }

  /** The value of a string of decimal digits. */
  function DigitsValue(s: string): nat
    requires AllDigits(s)
    decreases |s|
  {
    if s == [] then 0 else DigitsValue(s[..|s| - 1]) * 10 + (s[|s| - 1] as int - '0' as int)
  }

  /** Reading back the digits of a number gives the number. */
  lemma {:induction false} DigitsRoundTrip(n: nat)
    ensures DigitsValue(DigitsOf(n)) == n
    decreases n
  {
    var d := DigitsOf(n);
    if n >= 10 {
      DigitsRoundTrip(n / 10);
      assert d[..|d| - 1] == DigitsOf(n / 10);
    }
  }

  /**
   * Python's `int(s)` for a string: surrounding whitespace, an optional sign
   * and ASCII digits; anything else raises ValueError (here: None).
   */
  function ParseInt(s: string): Option<int> {
    ParseSigned(Strip(s))
  }

  function ParseSigned(t: string): Option<int> {
    if t != [] && t[0] == '-' then
      match ParseDigits(t[1..])
      case Some(v) => Some(0 - v)
      case None => None
    else if t != [] && t[0] == '+' then ParseDigits(t[1..])
    else ParseDigits(t)
  }

  function ParseDigits(ds: string): Option<int> {
    if ds != [] && AllDigits(ds) then Some(DigitsValue(ds)) else None
  }

  /** `int(str(n)) == n` for every integer. */
  lemma ParseDecimal(n: int)
    ensures ParseInt(Decimal(n)) == Some(n)
  {
    var m := if n < 0 then -n else n;
    var ds := DigitsOf(m);
    DigitsParse(m);
    if n < 0 {
      var s := Decimal(n);
      assert s == "-" + ds;
      assert s[1..] == ds;
      assert s[|s| - 1] == ds[|ds| - 1];
      assert !IsSpace(s[0]);
      StripOfStripped(s);
    } else {
      StripOfStripped(ds);
    }
  }

  /** The digits of a number have no surrounding whitespace and read back as the number. */
  lemma DigitsParse(m: nat)
    ensures Stripped(DigitsOf(m)) && ParseDigits(DigitsOf(m)) == Some(m)
  {
    var ds := DigitsOf(m);
    DigitNotSpace(ds[0]);
    DigitNotSpace(ds[|ds| - 1]);
    DigitsRoundTrip(m);
  }

  lemma DigitNotSpace(c: char)
    requires '0' <= c <= '9'
    ensures !IsSpace(c)
  {
  }
}
