/** Go's string helpers (packages strings, strconv and bufio) as the core
    uses them, over Dafny strings (sequences of Unicode scalar values). */
module GoText {

  datatype Option<T> = None | Some(value: T)

  /** A value or an error message, as a Go (value, error) pair. */
  datatype Result<T> = Ok(value: T) | Err(msg: string)

  /** unicode.IsSpace: the Unicode White_Space property. */
  predicate IsSpace(c: char) {
    c == ' ' || c == '\t' || c == '\n' || c == '\U{B}' || c == '\U{C}' || c == '\r'
    || c == '\U{85}' || c == '\U{A0}' || c == '\U{1680}'
    || ('\U{2000}' <= c <= '\U{200A}')
    || c == '\U{2028}' || c == '\U{2029}' || c == '\U{202F}' || c == '\U{205F}' || c == '\U{3000}'
  }

  predicate NoSpace(s: string) {
    forall i :: 0 <= i < |s| ==> !IsSpace(s[i])
  }

  predicate AllSpace(s: string) {
    forall i :: 0 <= i < |s| ==> IsSpace(s[i])
  }

  /** A string with no white space at either end. */
  predicate Trimmed(s: string) {
    s == [] || (!IsSpace(s[0]) && !IsSpace(s[|s| - 1]))
  }

  function TrimLeft(s: string): (r: string)
    ensures |r| <= |s| && r == s[|s| - |r|..]
    ensures AllSpace(s[..|s| - |r|])
    ensures r == [] || !IsSpace(r[0])
  {
    if s == [] || !IsSpace(s[0]) then s else TrimLeft(s[1..])
  }

  function TrimRight(s: string): (r: string)
    ensures |r| <= |s| && r == s[..|r|]
    ensures AllSpace(s[|r|..])
    ensures r == [] || !IsSpace(r[|r| - 1])
  {
    if s == [] || !IsSpace(s[|s| - 1]) then s else TrimRight(s[..|s| - 1])
  }

  /** strings.TrimSpace: the text between the leading and the trailing white space. */
  /** r is s[i..i + |r|] with only white space before and after it. */
  predicate Inner(s: string, r: string, i: int) {
    0 <= i <= |s| - |r| && r == s[i..i + |r|] && AllSpace(s[..i]) && AllSpace(s[i + |r|..])
  }

  function TrimSpace(s: string): (r: string)
    ensures Trimmed(r) && |r| <= |s|
  {
    TrimRight(TrimLeft(s))
  }

  /** The trimmed text is the part of s between its leading and trailing
      white space. */
  lemma TrimSpaceInner(s: string) returns (i: int)
    ensures Inner(s, TrimSpace(s), i)
  {
    var l := TrimLeft(s);
    var r := TrimRight(l);
    i := |s| - |l|;
    InnerOfTrims(s, l, r);
  }

  /** Cutting white space off the front and then off the back leaves an
      inner part. */
  lemma InnerOfTrims(s: string, l: string, r: string)
    requires |l| <= |s| && l == s[|s| - |l|..] && AllSpace(s[..|s| - |l|])
    requires |r| <= |l| && r == l[..|r|] && AllSpace(l[|r|..])
    ensures Inner(s, r, |s| - |l|)
  {
    var i := |s| - |l|;
    assert s[i..][..|r|] == s[i..i + |r|];
    assert s[i..][|r|..] == s[i + |r|..];
  }

  /** A trimmed string never starts with a tab: the reason the darwin parser
      never attaches continuation lines. */
  lemma TrimmedNoTab(s: string)
    ensures !HasPrefix(TrimSpace(s), "\t")
  {
    var r := TrimSpace(s);
    assert r == [] || r[0] != '\t';
    assert r == [] || r[..1] != "\t";
  }

  /** Length of the leading run of non-space characters. */
  function WordLen(s: string): (n: nat)
    ensures n <= |s| && NoSpace(s[..n]) && (n < |s| ==> IsSpace(s[n]))
  {
    if s == [] || IsSpace(s[0]) then 0 else 1 + WordLen(s[1..])
  }

  /** strings.Fields: the maximal runs of non-space characters, in order. */
  function Fields(s: string): (r: seq<string>)
    ensures forall k :: 0 <= k < |r| ==> r[k] != [] && NoSpace(r[k])
    decreases |s|
  {
    if s == [] then []
    else if IsSpace(s[0]) then Fields(s[1..])
    else
      var n := WordLen(s);
      [s[..n]] + Fields(s[n..])
  }

  /** strings.Join. */
  function Join(parts: seq<string>, sep: string): string
  {
    if parts == [] then ""
    else if |parts| == 1 then parts[0]
    else parts[0] + sep + Join(parts[1..], sep)
  }

  /** Number of occurrences of c in s. */
  function Count(s: string, c: char): nat
  {
    if s == [] then 0 else (if s[0] == c then 1 else 0) + Count(s[1..], c)
  }

  lemma CountAppend(a: string, b: string, c: char)
    ensures Count(a + b, c) == Count(a, c) + Count(b, c)
  {
    if a == [] {
      assert a + b == b;
    } else {
      assert (a + b)[1..] == a[1..] + b;
      CountAppend(a[1..], b, c);
    }
  }

  /** Appending to an empty sequence, as a Go append to an empty slice. */
  lemma NilAppend<T>(x: seq<T>)
    ensures [] + x == x && x + [] == x
  {
  }

  /** Concatenation is associative. */
  lemma AppendAssoc<T>(a: seq<T>, b: seq<T>, c: seq<T>)
    ensures a + (b + c) == (a + b) + c
  {
  }

  /** A non-empty sequence is its front followed by its last element. */
  lemma FrontLast<T>(s: seq<T>)
    requires s != []
    ensures s == s[..|s| - 1] + [s[|s| - 1]]
  {
  }

  /** Index of the first c in s, or |s| when there is none. */
  function FirstOf(s: string, c: char): (i: nat)
    ensures i <= |s| && (i < |s| ==> s[i] == c)
    ensures forall k :: 0 <= k < i ==> s[k] != c
  {
    if s == [] then 0 else if s[0] == c then 0 else 1 + FirstOf(s[1..], c)
  }

  /** strings.Split with a one-character separator. */
  function Split(s: string, sep: char): (r: seq<string>)
    ensures |r| >= 1
    ensures forall k :: 0 <= k < |r| ==> sep !in r[k]
    decreases |s|
  {
    var i := FirstOf(s, sep);
    if i == |s| then [s] else [s[..i]] + Split(s[i + 1..], sep)
  }

  /** Joining the pieces with the separator gives back the input. */
  lemma {:induction false} SplitJoin(s: string, sep: char)
    ensures Join(Split(s, sep), [sep]) == s
    decreases |s|
  {
    var i := FirstOf(s, sep);
    if i < |s| {
      var rest := Split(s[i + 1..], sep);
      assert Split(s, sep) == [s[..i]] + rest;
      JoinCons(s[..i], rest, [sep]);
      SplitJoin(s[i + 1..], sep);
      assert s == s[..i] + [sep] + s[i + 1..];
    } else {
      assert Split(s, sep) == [s];
    }
  }

  /** Joining a first piece in front of at least one more. */
  lemma JoinCons(a: string, rest: seq<string>, sep: string)
    requires |rest| >= 1
    ensures Join([a] + rest, sep) == a + sep + Join(rest, sep)
  {
    assert ([a] + rest)[0] == a && ([a] + rest)[1..] == rest;
  }

  /** Split yields one piece more than there are separators. */
  lemma {:induction false} SplitCount(s: string, sep: char)
    ensures |Split(s, sep)| == Count(s, sep) + 1
    decreases |s|
  {
    var i := FirstOf(s, sep);
    if i == |s| {
      NotInCount(s, sep);
    } else {
      SplitCount(s[i + 1..], sep);
      assert s == s[..i] + [sep] + s[i + 1..];
      CountAppend(s[..i] + [sep], s[i + 1..], sep);
      CountAppend(s[..i], [sep], sep);
      NotInCount(s[..i], sep);
    }
  }

  lemma NotInCount(s: string, c: char)
    requires forall k :: 0 <= k < |s| ==> s[k] != c
    ensures Count(s, c) == 0
  {
  }

  /** Splitting at the first separator. */
  lemma SplitFirst(a: string, rest: string, sep: char)
    requires sep !in a
    ensures Split(a + [sep] + rest, sep) == [a] + Split(rest, sep)
  {
    var s := a + [sep] + rest;
    assert s[|a|] == sep;
    assert forall k :: 0 <= k < |a| ==> s[k] == a[k];
    assert FirstOf(s, sep) == |a|;
    assert s[..|a|] == a && s[|a| + 1..] == rest;
  }

  /** A string without the separator is a single piece. */
  lemma SplitNone(a: string, sep: char)
    requires sep !in a
    ensures Split(a, sep) == [a]
  {
    assert FirstOf(a, sep) == |a|;
  }

  /** Splitting a join gives the pieces back when none of them holds the separator. */
  lemma {:induction false} JoinSplit(parts: seq<string>, sep: char)
    requires |parts| >= 1
    requires forall k :: 0 <= k < |parts| ==> sep !in parts[k]
    ensures Split(Join(parts, [sep]), sep) == parts
  {
    if |parts| == 1 {
      SplitNone(parts[0], sep);
    } else {
      JoinSplit(parts[1..], sep);
      assert Join(parts, [sep]) == parts[0] + [sep] + Join(parts[1..], [sep]);
      SplitFirst(parts[0], Join(parts[1..], [sep]), sep);
    }
  }

  /** strings.HasPrefix. */
  predicate HasPrefix(s: string, p: string) {
    |p| <= |s| && s[..|p|] == p
  }

  /** An occurrence of sub in s starting at i. */
  predicate OccursAt(s: string, sub: string, i: int) {
    0 <= i && i + |sub| <= |s| && s[i..i + |sub|] == sub
  }

  /** strings.Contains. */
  predicate Contains(s: string, sub: string) {
    exists i | 0 <= i <= |s| - |sub| :: OccursAt(s, sub, i)
  }

  /** Text that contains sub still does after something is put in front. */
  lemma ContainsAfter(a: string, b: string, sub: string)
    requires Contains(b, sub)
    ensures Contains(a + b, sub)
  {
    var i :| 0 <= i <= |b| - |sub| && OccursAt(b, sub, i);
    assert (a + b)[|a| + i..|a| + i + |sub|] == b[i..i + |sub|];
    assert OccursAt(a + b, sub, |a| + i);
  }

  /** strings.Index: the first occurrence of sub, or -1. */
  function Index(s: string, sub: string): (r: int)
    ensures -1 <= r <= |s|
    ensures r == -1 <==> !Contains(s, sub)
    ensures r >= 0 ==> OccursAt(s, sub, r) && forall k :: 0 <= k < r ==> !OccursAt(s, sub, k)
    decreases |s|
  {
    if |sub| > |s| then -1
    else if s[..|sub|] == sub then assert OccursAt(s, sub, 0); 0
    else
      var k := Index(s[1..], sub);
      assert forall j :: 1 <= j <= |s| ==> (OccursAt(s, sub, j) <==> OccursAt(s[1..], sub, j - 1)) by {
        forall j | 1 <= j <= |s| ensures OccursAt(s, sub, j) <==> OccursAt(s[1..], sub, j - 1) {
          OccursAtTail(s, sub, j);
        }
      }
      if k == -1 then -1 else assert OccursAt(s, sub, k + 1); k + 1
  }

  /** An occurrence at j >= 1 is an occurrence at j - 1 in the tail. */
  lemma OccursAtTail(s: string, sub: string, j: int)
    requires 1 <= j <= |s|
    ensures OccursAt(s, sub, j) <==> OccursAt(s[1..], sub, j - 1)
  {
    var t := s[1..];
    if j + |sub| <= |s| {
      var a, b := s[j..j + |sub|], t[j - 1..j - 1 + |sub|];
      assert forall k | 0 <= k < |sub| :: a[k] == s[j + k] == t[j - 1 + k] == b[k];
      assert a == b;
    } else {
      assert j - 1 + |sub| > |t|;
    }
  }

  /** strings.ReplaceAll for a non-empty pattern: leftmost, non-overlapping. */
  function ReplaceAll(s: string, pat: string, rep: string): (r: string)
    requires pat != []
    ensures !Contains(s, pat) ==> r == s
    decreases |s|
  {
    if |s| < |pat| then s
    else if s[..|pat|] == pat then assert OccursAt(s, pat, 0); rep + ReplaceAll(s[|pat|..], pat, rep)
    else
      assert !Contains(s, pat) ==> !Contains(s[1..], pat) by {
        if Contains(s[1..], pat) {
          var j :| 0 <= j <= |s[1..]| - |pat| && OccursAt(s[1..], pat, j);
          assert s[j + 1..j + 1 + |pat|] == s[1..][j..j + |pat|];
          assert OccursAt(s, pat, j + 1);
        }
      }
      [s[0]] + ReplaceAll(s[1..], pat, rep)
  }

  lemma ReplaceAllRemoves(s: string, c: char, rep: string)
    requires c !in rep
    ensures c !in ReplaceAll(s, [c], rep)
    decreases |s|
  {
    if |s| >= 1 {
      ReplaceAllRemoves(s[1..], c, rep);
    }
  }

  /** Join(Fields(s), " "): white space runs collapsed to single blanks, ends trimmed. */
  function Collapse(s: string): (r: string)
  {
    Join(Fields(s), " ")
  }

  /** A string whose only white space is single blanks between words. */
  predicate Normalized(s: string) {
    Trimmed(s)
    && (forall i :: 0 <= i < |s| && IsSpace(s[i]) ==> s[i] == ' ')
    && (forall i :: 0 <= i < |s| - 1 ==> !(s[i] == ' ' && s[i + 1] == ' '))
  }

  lemma {:induction false} JoinWordsNormalized(ws: seq<string>)
    requires forall k :: 0 <= k < |ws| ==> ws[k] != [] && NoSpace(ws[k])
    ensures Normalized(Join(ws, " "))
    ensures |ws| > 0 ==> Join(ws, " ") != [] && Join(ws, " ")[0] == ws[0][0]
  {
    if |ws| == 1 {
    } else if |ws| > 1 {
      JoinWordsNormalized(ws[1..]);
      var t := Join(ws[1..], " ");
      var r := ws[0] + " " + t;
      assert r == Join(ws, " ");
      assert r[|ws[0]| + 1] == ws[1][0];
      forall i | 0 <= i < |r| && IsSpace(r[i]) ensures r[i] == ' ' {
        if i > |ws[0]| { assert r[i] == t[i - |ws[0]| - 1]; }
      }
      forall i | 0 <= i < |r| - 1 ensures !(r[i] == ' ' && r[i + 1] == ' ') {
        if i > |ws[0]| { assert r[i] == t[i - |ws[0]| - 1] && r[i + 1] == t[i - |ws[0]|]; }
      }
      assert r[|r| - 1] == t[|t| - 1];
    }
  }

  /** Collapsed text has only single blanks between words and none at either end. */
  lemma CollapseNormalized(s: string)
    ensures Normalized(Collapse(s))
  {
    JoinWordsNormalized(Fields(s));
  }

  /** The leading word of w + t is w when t is empty or starts with white space. */
  lemma {:induction false} WordLenOf(w: string, t: string)
    requires NoSpace(w) && (t == [] || IsSpace(t[0]))
    ensures WordLen(w + t) == |w|
    decreases |w|
  {
    if w != [] {
      assert (w + t)[1..] == w[1..] + t;
      WordLenOf(w[1..], t);
    }
  }

  /** A word followed by white space or nothing is the first field. */
  lemma FieldsWord(w: string, t: string)
    requires w != [] && NoSpace(w) && (t == [] || IsSpace(t[0]))
    ensures Fields(w + t) == [w] + Fields(t)
  {
    WordLenOf(w, t);
    var s := w + t;
    assert s[..|w|] == w && s[|w|..] == t;
  }

  /** Splitting words joined by single blanks gives the words back. */
  lemma {:induction false} FieldsJoin(ws: seq<string>)
    requires forall k :: 0 <= k < |ws| ==> ws[k] != [] && NoSpace(ws[k])
    ensures Fields(Join(ws, " ")) == ws
  {
    if |ws| == 1 {
      FieldsWord(ws[0], []);
      assert ws[0] + [] == ws[0];
    } else if |ws| > 1 {
      var w, rest := ws[0], ws[1..];
      assert ws == [w] + rest;
      JoinCons(w, rest, " ");
      var t := Join(rest, " ");
      AppendAssoc(w, " ", t);
      FieldsJoin(rest);
      FieldsWord(w, " " + t);
      FieldsBlank(t);
    }
  }

  lemma FieldsBlank(t: string)
    ensures Fields(" " + t) == Fields(t)
  {
    assert (" " + t)[1..] == t;
  }

  /** Collapsing keeps the words, in order. */
  lemma CollapseKeepsWords(s: string)
    ensures Fields(Collapse(s)) == Fields(s)
  {
    FieldsJoin(Fields(s));
  }

  /** Two strings of one length that agree except where both hold white space. */
  predicate SameOutsideSpace(s: string, t: string) {
    |s| == |t| && forall k :: 0 <= k < |s| ==> s[k] == t[k] || (IsSpace(s[k]) && IsSpace(t[k]))
  }

  lemma SameOutsideSpaceFrom(s: string, t: string, n: nat)
    requires SameOutsideSpace(s, t) && n <= |s|
    ensures SameOutsideSpace(s[n..], t[n..])
  {
    assert forall k | 0 <= k < |s| - n :: s[n..][k] == s[n + k] && t[n..][k] == t[n + k];
  }

  lemma {:induction false} WordLenSame(s: string, t: string)
    requires SameOutsideSpace(s, t)
    ensures WordLen(s) == WordLen(t) && s[..WordLen(s)] == t[..WordLen(t)]
    decreases |s|
  {
    if s != [] && !IsSpace(s[0]) {
      assert s[0] == t[0];
      SameOutsideSpaceFrom(s, t, 1);
      WordLenSame(s[1..], t[1..]);
      var n := WordLen(s);
      assert s[..n] == [s[0]] + s[1..][..n - 1];
      assert t[..n] == [t[0]] + t[1..][..n - 1];
    } else if s != [] {
      assert IsSpace(t[0]);
    }
  }

  /** Strings that differ only in which white space they hold have the same words. */
  lemma {:induction false} FieldsSame(s: string, t: string)
    requires SameOutsideSpace(s, t)
    ensures Fields(s) == Fields(t)
    decreases |s|
  {
    if s != [] {
      if IsSpace(s[0]) {
        assert IsSpace(t[0]);
        SameOutsideSpaceFrom(s, t, 1);
        FieldsSame(s[1..], t[1..]);
      } else {
        WordLenSame(s, t);
        var n := WordLen(s);
        SameOutsideSpaceFrom(s, t, n);
        FieldsSame(s[n..], t[n..]);
      }
    }
  }

  /** Replacing one white space character by another changes nothing else. */
  lemma {:induction false} ReplaceSpaceSame(s: string, c: char, d: char)
    requires IsSpace(c) && IsSpace(d)
    ensures SameOutsideSpace(s, ReplaceAll(s, [c], [d]))
    decreases |s|
  {
    if s != [] {
      ReplaceSpaceSame(s[1..], c, d);
      var rest := ReplaceAll(s[1..], [c], [d]);
      var r := ReplaceAll(s, [c], [d]);
      if s[0] == c {
        assert s[..1] == [c];
        assert r == [d] + rest;
      } else {
        assert s[..1] != [c];
        assert r == [s[0]] + rest;
      }
      assert forall k | 1 <= k < |s| :: s[k] == s[1..][k - 1] && r[k] == rest[k - 1];
    }
  }

  /** Replacing one white space character by another keeps the words. */
  lemma ReplaceSpaceKeepsWords(s: string, c: char, d: char)
    requires IsSpace(c) && IsSpace(d)
    ensures Fields(ReplaceAll(s, [c], [d])) == Fields(s)
  {
    ReplaceSpaceSame(s, c, d);
    FieldsSame(s, ReplaceAll(s, [c], [d]));
  }

  /** Split of a string whose first character is not the separator: that
      character goes in front of the first piece of the rest. */
  lemma SplitCons(s: string, sep: char)
    requires s != [] && s[0] != sep
    ensures var rest := Split(s[1..], sep);
      Split(s, sep) == [[s[0]] + rest[0]] + rest[1..]
  {
    var i := FirstOf(s, sep);
    var j := FirstOf(s[1..], sep);
    assert i == j + 1;
    if j == |s| - 1 {
      assert [s[0]] + s[1..] == s;
    } else {
      assert s[1..][j + 1..] == s[i + 1..];
      assert [s[0]] + s[1..][..j] == s[..i];
    }
  }

  /** Joining after putting one character in front of the first piece. */
  lemma JoinFront(c: char, ps: seq<string>, sep: string)
    requires |ps| >= 1
    ensures Join([[c] + ps[0]] + ps[1..], sep) == [c] + Join(ps, sep)
  {
    var qs := [[c] + ps[0]] + ps[1..];
    assert qs[0] == [c] + ps[0] && qs[1..] == ps[1..];
    if |ps| > 1 {
      assert Join(qs, sep) == ([c] + ps[0]) + sep + Join(ps[1..], sep);
    }
  }

  /** Replacing every occurrence of a single character is joining the
      pieces between its occurrences with the replacement. */
  lemma {:induction false} ReplaceAllSplit(s: string, c: char, rep: string)
    ensures ReplaceAll(s, [c], rep) == Join(Split(s, c), rep)
    decreases |s|
  {
    if s == [] {
      assert Split(s, c) == [s];
    } else if s[0] == c {
      assert s[..1] == [c];
      ReplaceAllSplit(s[1..], c, rep);
      var rest := Split(s[1..], c);
      assert Split(s, c) == [[]] + rest;
      JoinCons([], rest, rep);
    } else {
      assert s[..1] != [c];
      ReplaceAllSplit(s[1..], c, rep);
      SplitCons(s, c);
      JoinFront(s[0], Split(s[1..], c), rep);
    }
  }

  // ---------------------------------------------------------------------
  // Decimal numbers (strconv.Itoa / strconv.Atoi)

  const MinInt64: int := -0x8000_0000_0000_0000
  const MaxInt64: int := 0x7FFF_FFFF_FFFF_FFFF

  predicate IsDigit(c: char) { '0' <= c <= '9' }

  function DigitValue(c: char): (d: nat)
    requires IsDigit(c)
    ensures d < 10
  {
    (c as int) - ('0' as int)
  }

  function DigitChar(d: nat): (c: char)
    requires d < 10
    ensures IsDigit(c) && DigitValue(c) == d
  {
    ((d + ('0' as int)) as char)
  }

  predicate AllDigits(s: string) {
    forall i :: 0 <= i < |s| ==> IsDigit(s[i])
  }

  /** The value of a string of decimal digits, most significant first. */
  function DigitsValue(s: string): nat
    requires AllDigits(s)
  {
    if s == [] then 0 else 10 * DigitsValue(s[..|s| - 1]) + DigitValue(s[|s| - 1])
  }

  /** The shortest decimal digits of n. */
  function NatDigits(n: nat): (s: string)
    ensures s != [] && AllDigits(s)
  {
    if n < 10 then [DigitChar(n)] else NatDigits(n / 10) + [DigitChar(n % 10)]
  }

  lemma {:induction false} NatDigitsValue(n: nat)
    ensures DigitsValue(NatDigits(n)) == n
  {
    if n >= 10 {
      NatDigitsValue(n / 10);
      var s := NatDigits(n);
      assert s[..|s| - 1] == NatDigits(n / 10);
    }
  }

  /** strconv.Itoa. */
  function Itoa(n: int): (s: string)
    ensures s != []
    ensures n >= 0 ==> AllDigits(s)
    ensures n < 0 ==> s[0] == '-' && AllDigits(s[1..])
  {
    if n >= 0 then NatDigits(n) else "-" + NatDigits(-n)
  }

  /** strconv.Atoi: an optional sign and one or more decimal digits, in the
      range of a 64-bit int; anything else is an error. */
  function Atoi(s: string): (r: Option<int>)
    ensures r.Some? ==> MinInt64 <= r.value <= MaxInt64
  {
    var neg := s != [] && s[0] == '-';
    var body := if s != [] && (s[0] == '-' || s[0] == '+') then s[1..] else s;
    if body == [] || !AllDigits(body) then None
    else
      var v: int := if neg then -(DigitsValue(body) as int) else DigitsValue(body);
      if MinInt64 <= v <= MaxInt64 then Some(v) else None
  }

  /** Atoi reads back what Itoa writes, for every 64-bit value. */
  lemma AtoiItoa(n: int)
    requires MinInt64 <= n <= MaxInt64
    ensures Atoi(Itoa(n)) == Some(n)
  {
    if n >= 0 {
      NatDigitsValue(n);
      assert Itoa(n)[0] != '-' && Itoa(n)[0] != '+';
    } else {
      NatDigitsValue(-n);
      assert Itoa(n)[1..] == NatDigits(-n);
    }
  }

  /** Atoi accepts redundant leading zeros, as "%02d" produces them. */
  lemma AtoiLeadingZero(d: nat)
    requires d < 10
    ensures Atoi("0" + Itoa(d)) == Some(d)
  {
    var s := "0" + Itoa(d);
    assert Itoa(d) == [DigitChar(d)];
    assert s[..|s| - 1] == "0";
    assert DigitsValue("0") == 0 by { assert "0"[..0] == []; }
  }

  /** `%02d`: at least two characters, zero-padded for 0..9. */
  function Pad2(n: int): (r: string)
    ensures |r| >= 2 && ':' !in r
    ensures MinInt64 <= n <= MaxInt64 ==> Atoi(r) == Some(n)
  {
    if 0 <= n < 10 then
      AtoiLeadingZero(n);
      assert ':' !in Itoa(n) by { assert Itoa(n) == [DigitChar(n)]; }
      "0" + Itoa(n)
    else if MinInt64 <= n <= MaxInt64 then
      AtoiItoa(n);
      Itoa(n)
    else
      assert n < 0 ==> Itoa(n) == "-" + NatDigits(-n);
      Itoa(n)
  }

  /** Go's integer division, which truncates toward zero. */
  function Quot(a: int, b: int): int
    requires b > 0
  {
    if a >= 0 then a / b else -((-a) / b)
  }

  /** Go's remainder: it takes the sign of the dividend. */
  function Rem(a: int, b: int): (r: int)
    requires b > 0
    ensures a == Quot(a, b) * b + r
    ensures a >= 0 ==> 0 <= r < b
    ensures a < 0 ==> -b < r <= 0
  {
    a - Quot(a, b) * b
  }

  // ---------------------------------------------------------------------
  // Case folding, as far as comparisons against ASCII words need it

  /** unicode.ToLower restricted to the characters whose lower case is an
      ASCII letter: A-Z, U+0130 (dotted capital I) and U+212A (Kelvin sign). */
  function LowerChar(c: char): (r: char)
    ensures IsAsciiLower(r) ==> (r == c || (IsAsciiUpper(c) && r == c + ('a' - 'A')) || c == '\U{130}' || c == '\U{212A}')
  {
    if 'A' <= c <= 'Z' then c + ('a' - 'A')
    else if c == '\U{130}' then 'i'
    else if c == '\U{212A}' then 'k'
    else c
  }

  predicate IsAsciiLower(c: char) { 'a' <= c <= 'z' }
  predicate IsAsciiUpper(c: char) { 'A' <= c <= 'Z' }

  /** strings.ToLower, exact wherever the result is compared with ASCII text. */
  function ToLower(s: string): (r: string)
    ensures |r| == |s| && forall i :: 0 <= i < |s| ==> r[i] == LowerChar(s[i])
  {
    if s == [] then [] else [LowerChar(s[0])] + ToLower(s[1..])
  }

  /** ASCII upper case, used to state case-insensitivity. */
  function UpperAscii(s: string): (r: string)
    ensures |r| == |s|
  {
    if s == [] then []
    else [if 'a' <= s[0] <= 'z' then s[0] - ('a' - 'A') else s[0]] + UpperAscii(s[1..])
  }

  lemma {:induction false} ToLowerUpper(s: string)
    ensures ToLower(UpperAscii(s)) == ToLower(s)
  {
    if s != [] {
      ToLowerUpper(s[1..]);
    }
  }

  // ---------------------------------------------------------------------
  // bufio.Scanner with ScanLines

  /** A line with one trailing carriage return dropped. */
  function DropCR(s: string): string {
    if s != [] && s[|s| - 1] == '\r' then s[..|s| - 1] else s
  }

  /** The lines a bufio.Scanner yields: split at '\n', one trailing '\r'
      dropped from each, and no empty line after a final '\n'. */
  function ScanLines(s: string): (r: seq<string>)
    ensures forall k :: 0 <= k < |r| ==> '\n' !in r[k]
    decreases |s|
  {
    if s == [] then []
    else
      var i := FirstOf(s, '\n');
      if i == |s| then [DropCR(s)] else [DropCR(s[..i])] + ScanLines(s[i + 1..])
  }

  // ---------------------------------------------------------------------
  // Go's string order (byte order of UTF-8, which is code point order)

  /** a < b in Go: lexicographic by code point. */
  predicate StrLess(a: string, b: string)
    decreases |a|
  {
    if a == [] then b != []
    else if b == [] then false
    else if a[0] != b[0] then a[0] < b[0]
    else StrLess(a[1..], b[1..])
  }

  lemma {:induction false} StrLessIrreflexive(a: string)
    ensures !StrLess(a, a)
    decreases |a|
  {
    if a != [] { StrLessIrreflexive(a[1..]); }
  }

  lemma {:induction false} StrLessTransitive(a: string, b: string, c: string)
    requires StrLess(a, b) && StrLess(b, c)
    ensures StrLess(a, c)
    decreases |a|
  {
    if a != [] && b != [] && c != [] && a[0] == b[0] && b[0] == c[0] {
      StrLessTransitive(a[1..], b[1..], c[1..]);
    }
  }

  lemma {:induction false} StrLessTotal(a: string, b: string)
    requires a != b
    ensures StrLess(a, b) || StrLess(b, a)
    decreases |a|
  {
    if a != [] && b != [] && a[0] == b[0] {
      assert a == [a[0]] + a[1..] && b == [b[0]] + b[1..];
      StrLessTotal(a[1..], b[1..]);
    }
  }

  /** Go's `>` on strings, keeping the larger of the two. */
  function StrMax(a: string, b: string): (r: string)
    ensures r == a || r == b
    ensures !StrLess(r, a) && !StrLess(r, b)
  {
    StrLessIrreflexive(a);
    StrLessIrreflexive(b);
    if StrLess(a, b) then
      (if StrLess(b, a) then StrLessTransitive(a, b, a); b else b)
    else
      (if StrLess(a, b) then a else if a == b then a else StrLessTotal(a, b); a)
  }
}
