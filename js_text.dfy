/**
 * Strings as JavaScript sees them: sequences of UTF-16 code units. `length`,
 * `substring` and a textarea's selection offsets all count code units, so an
 * emoji outside the Basic Multilingual Plane has length 2.
 */
module JsText {

  newtype CodeUnit = x: int | 0 <= x < 0x1_0000

  type JsString = seq<CodeUnit>

  /** A literal of this model as a JavaScript string. Every literal used here lies in
      the Basic Multilingual Plane, where one character is one code unit. */
  function Lit(s: string): (r: JsString)
    requires forall i :: 0 <= i < |s| ==> s[i] as int < 0x1_0000
    ensures |r| == |s|
    ensures forall i :: 0 <= i < |s| ==> r[i] as int == s[i] as int
  {
    seq(|s|, i requires 0 <= i < |s| => s[i] as int as CodeUnit)
  }

  predicate StartsWith(s: JsString, prefix: JsString) {
    |prefix| <= |s| && s[..|prefix|] == prefix
  }

  predicate EndsWith(s: JsString, suffix: JsString) {
    |suffix| <= |s| && s[|s| - |suffix|..] == suffix
  }

  /** JavaScript's `s || fallback` on a string: the empty string is falsy. */
  function OrElse(s: JsString, fallback: JsString): JsString {
    if s == [] then fallback else s
  }

  // ---------------------------------------------------------------------------
  // String.prototype.trim
  // ---------------------------------------------------------------------------

  /** The code units ECMAScript's `trim` removes: WhiteSpace (TAB, VT, FF, ZWNBSP and
      every Space_Separator) and LineTerminator (LF, CR, LS, PS). */
  predicate IsWhiteSpace(c: CodeUnit) {
    || c == 0x09 || c == 0x0B || c == 0x0C || c == 0xFEFF
    || c == 0x20 || c == 0xA0 || c == 0x1680 || (0x2000 <= c <= 0x200A)
    || c == 0x202F || c == 0x205F || c == 0x3000
    || c == 0x0A || c == 0x0D || c == 0x2028 || c == 0x2029
  }

  predicate AllWhiteSpace(s: JsString) {
    forall k :: 0 <= k < |s| ==> IsWhiteSpace(s[k])
  }

  /** The first position at or after `i` that does not hold white space. */
  function SkipWhiteSpace(s: JsString, i: nat): (k: nat)
    requires i <= |s|
    ensures i <= k <= |s|
    ensures forall m :: i <= m < k ==> IsWhiteSpace(s[m])
    ensures k < |s| ==> !IsWhiteSpace(s[k])
    decreases |s| - i
  {
    if i < |s| && IsWhiteSpace(s[i]) then SkipWhiteSpace(s, i + 1) else i
  }

  /** The end of `s[lo..j]` once its trailing white space is dropped. */
  function SkipWhiteSpaceBack(s: JsString, lo: nat, j: nat): (k: nat)
    requires lo <= j <= |s|
    ensures lo <= k <= j
    ensures forall m :: k <= m < j ==> IsWhiteSpace(s[m])
    ensures lo < k ==> !IsWhiteSpace(s[k - 1])
  {
    if lo < j && IsWhiteSpace(s[j - 1]) then SkipWhiteSpaceBack(s, lo, j - 1) else j
  }

  /** `s.trim()`: the leading white space is dropped, then the trailing. */
  function Trim(s: JsString): JsString {
    var i := SkipWhiteSpace(s, 0);
    s[i..SkipWhiteSpaceBack(s, i, |s|)]
  }

  /** What `trim` keeps is a contiguous part of the input that neither starts nor ends
      with white space, and everything it cuts off is white space. */
  lemma TrimIsInfix(s: JsString)
    ensures exists i, j :: 0 <= i <= j <= |s| && Trim(s) == s[i..j]
                        && (forall m :: 0 <= m < i ==> IsWhiteSpace(s[m]))
                        && (forall m :: j <= m < |s| ==> IsWhiteSpace(s[m]))
    ensures Trim(s) != [] ==> !IsWhiteSpace(Trim(s)[0]) && !IsWhiteSpace(Trim(s)[|Trim(s)| - 1])
  {
    var i := SkipWhiteSpace(s, 0);
    var j := SkipWhiteSpaceBack(s, i, |s|);
    assert Trim(s) == s[i..j];
  }

  /** `trim` yields the empty string exactly when the input is all white space (the
      empty string included). */
  lemma TrimEmptyIff(s: JsString)
    ensures Trim(s) == [] <==> AllWhiteSpace(s)
  {
    var i := SkipWhiteSpace(s, 0);
    var j := SkipWhiteSpaceBack(s, i, |s|);
    if AllWhiteSpace(s) {
      assert i == |s|;
    } else {
      assert i < |s|;
      assert i < j;
      assert |s[i..j]| > 0;
    }
  }

  /** Trimming twice is trimming once. */
  lemma TrimIdempotent(s: JsString)
    ensures Trim(Trim(s)) == Trim(s)
  {
    var t := Trim(s);
    TrimIsInfix(s);
    if t != [] {
      assert SkipWhiteSpace(t, 0) == 0;
      assert SkipWhiteSpaceBack(t, 0, |t|) == |t|;
    }
  }

  // ---------------------------------------------------------------------------
  // Lexicographic order of code units (the order localeCompare is taken to be)
  // ---------------------------------------------------------------------------

  predicate LexLess(a: JsString, b: JsString) {
    if a == [] then b != []
    else if b == [] then false
    else if a[0] != b[0] then a[0] < b[0]
    else LexLess(a[1..], b[1..])
  }

  lemma {:induction false} LexIrreflexive(a: JsString)
    ensures !LexLess(a, a)
  {
    if a != [] { LexIrreflexive(a[1..]); }
  }

  lemma {:induction false} LexAsymmetric(a: JsString, b: JsString)
    ensures !(LexLess(a, b) && LexLess(b, a))
  {
    if a != [] && b != [] && a[0] == b[0] { LexAsymmetric(a[1..], b[1..]); }
  }

  lemma {:induction false} LexTransitive(a: JsString, b: JsString, c: JsString)
    requires LexLess(a, b) && LexLess(b, c)
    ensures LexLess(a, c)
  {
    if a != [] && a[0] == b[0] && b[0] == c[0] {
      LexTransitive(a[1..], b[1..], c[1..]);
    }
  }

  lemma {:induction false} LexTotal(a: JsString, b: JsString)
    ensures a == b || LexLess(a, b) || LexLess(b, a)
  {
    if a != [] && b != [] && a[0] == b[0] {
      LexTotal(a[1..], b[1..]);
      if a[1..] == b[1..] {
        assert a == [a[0]] + a[1..] && b == [b[0]] + b[1..];
      }
    }
  }

  /** Two strings that agree up to position `k` and differ there are ordered by
      their code units at `k`. */
  lemma {:induction false} LexLessAtFirstDifference(a: JsString, b: JsString, k: nat)
    requires k < |a| && k < |b| && a[..k] == b[..k] && a[k] < b[k]
    ensures LexLess(a, b)
  {
    if k > 0 {
      assert a[0] == a[..k][0] == b[..k][0] == b[0];
      assert a[1..][..k - 1] == a[1..k] == b[1..k] == b[1..][..k - 1];
      LexLessAtFirstDifference(a[1..], b[1..], k - 1);
    }
  }

  /** `a.localeCompare(b)` on the strings this model compares (dates such as
      "2024-12"), taken as lexicographic order: negative, zero or positive. */
  function LocaleCompare(a: JsString, b: JsString): (r: int)
    ensures r < 0 <==> LexLess(a, b)
    ensures r == 0 <==> a == b
    ensures r > 0 <==> LexLess(b, a)
  {
    LexIrreflexive(a);
    LexAsymmetric(a, b);
    LexTotal(a, b);
    if LexLess(a, b) then -1 else if a == b then 0 else 1
  }
}
