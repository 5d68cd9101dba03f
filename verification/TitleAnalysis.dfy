/** The deterministic business result of a Work Item: code points and words of its title. */
module TitleAnalysis {

  /** Go's unicode.IsSpace. */
  predicate IsSpace(c: char) {
    || '\t' <= c <= '\r' || c == ' ' || c == '\U{0085}' || c == '\U{00A0}' || c == '\U{1680}'
    || '\U{2000}' <= c <= '\U{200A}' || c == '\U{2028}' || c == '\U{2029}'
    || c == '\U{202F}' || c == '\U{205F}' || c == '\U{3000}'
  }

  /** The white space of Unicode, one by one: five controls, the space, NEL, NBSP, and seventeen others. */
  const WHITE_SPACE: set<char> := {
    '\U{0009}', '\U{000A}', '\U{000B}', '\U{000C}', '\U{000D}', '\U{0020}', '\U{0085}', '\U{00A0}', '\U{1680}',
    '\U{2000}', '\U{2001}', '\U{2002}', '\U{2003}', '\U{2004}', '\U{2005}', '\U{2006}', '\U{2007}', '\U{2008}',
    '\U{2009}', '\U{200A}', '\U{2028}', '\U{2029}', '\U{202F}', '\U{205F}', '\U{3000}'}

  lemma SpaceIsWhiteSpace(c: char)
    ensures IsSpace(c) <==> c in WHITE_SPACE
  {
  }

  ghost predicate AllSpace(s: string) {
    forall k :: 0 <= k < |s| ==> IsSpace(s[k])
  }

  /** The length of the leading word of s. */
  function WordLength(s: string): (n: nat)
    ensures n <= |s| && (forall k :: 0 <= k < n ==> !IsSpace(s[k])) && (n < |s| ==> IsSpace(s[n]))
  {
    if s == [] || IsSpace(s[0]) then 0 else 1 + WordLength(s[1..])
  }

  /** strings.Fields: the maximal runs of non-space characters, in order. */
  function Fields(s: string): (words: seq<string>)
    decreases |s|
  {
    if s == [] then []
    else if IsSpace(s[0]) then Fields(s[1..])
    else [s[..WordLength(s)]] + Fields(s[WordLength(s)..])
  }

  /** analyzeTitle. */
  function Analyze(title: string): (counts: (nat, nat)) {
    (|title|, |Fields(title)|)
  }

  /** A reference count that never builds a word: positions where a word begins,
      given whether the character before s was a space. */
  function WordStarts(s: string, afterSpace: bool): nat {
    if s == [] then 0
    else (if afterSpace && !IsSpace(s[0]) then 1 else 0) + WordStarts(s[1..], IsSpace(s[0]))
  }

  lemma {:induction false} StartsSkipWord(s: string, n: nat)
    requires n <= |s| && forall k :: 0 <= k < n ==> !IsSpace(s[k])
    ensures WordStarts(s, false) == WordStarts(s[n..], false)
    decreases n
  {
    if n > 0 {
      StartsSkipWord(s[1..], n - 1);
      assert s[1..][n - 1..] == s[n..];
    }
  }

  /** Splitting into fields agrees with counting space-to-non-space transitions. */
  lemma {:induction false} FieldsCountTransitions(s: string)
    ensures |Fields(s)| == WordStarts(s, true)
    decreases |s|
  {
    if s == [] {
    } else if IsSpace(s[0]) {
      FieldsCountTransitions(s[1..]);
    } else {
      var n := WordLength(s);
      StartsSkipWord(s, n);
      FieldsCountTransitions(s[n..]);
      if n < |s| {
        assert s[n..][0] == s[n];
      }
    }
  }

  /** A separator splits the analysis: the words of both sides, side by side. */
  lemma {:induction false} FieldsAcrossSeparator(a: string, space: char, b: string)
    requires IsSpace(space)
    ensures Fields(a + [space] + b) == Fields(a) + Fields(b)
    decreases |a|
  {
    var s := a + [space] + b;
    if a == [] {
      assert s[1..] == b;
    } else if IsSpace(a[0]) {
      assert s[1..] == a[1..] + [space] + b;
      FieldsAcrossSeparator(a[1..], space, b);
    } else {
      WordLengthInFront(a, space, b);
      var n := WordLength(a);
      assert s[..n] == a[..n];
      assert s[n..] == a[n..] + [space] + b;
      FieldsAcrossSeparator(a[n..], space, b);
    }
  }

  lemma {:induction false} WordLengthInFront(a: string, space: char, b: string)
    requires IsSpace(space)
    ensures WordLength(a + [space] + b) == WordLength(a)
    decreases |a|
  {
    if a != [] && !IsSpace(a[0]) {
      assert (a + [space] + b)[1..] == a[1..] + [space] + b;
      WordLengthInFront(a[1..], space, b);
    }
  }

  /** Leading and trailing space changes no word. */
  lemma {:induction false} FieldsIgnorePadding(left: string, s: string, right: string)
    requires AllSpace(left) && AllSpace(right)
    ensures Fields(left + s + right) == Fields(s)
    decreases |left| + |right|
  {
    if left != [] {
      assert (left + s + right)[1..] == left[1..] + s + right;
      FieldsIgnorePadding(left[1..], s, right);
    } else if right != [] {
      assert left + s + right == s + [right[0]] + right[1..];
      FieldsAcrossSeparator(s, right[0], right[1..]);
      FieldsIgnorePadding([], [], right[1..]);
      assert [] + [] + right[1..] == right[1..];
      assert Fields(s) + [] == Fields(s);
    } else {
      assert left + s + right == s;
    }
  }

  /** Every word needs a character and every two words a separator between them. */
  lemma {:induction false} WordsNeedCharacters(title: string)
    ensures 2 * Analyze(title).1 <= Analyze(title).0 + 1
    decreases |title|
  {
    if title == [] {
    } else if IsSpace(title[0]) {
      WordsNeedCharacters(title[1..]);
    } else {
      var n := WordLength(title);
      var rest := title[n..];
      assert |Fields(title)| == 1 + |Fields(rest)|;
      if n < |title| {
        assert IsSpace(rest[0]);
        assert Fields(rest) == Fields(rest[1..]);
        WordsNeedCharacters(rest[1..]);
      }
    }
  }

  /** Every field is a non-empty word without spaces, and together they spell the title without its spaces. */
  lemma {:induction false} FieldsAreTheWords(s: string)
    ensures forall w :: w in Fields(s) ==> w != [] && forall k :: 0 <= k < |w| ==> !IsSpace(w[k])
    ensures Join(Fields(s)) == Visible(s)
    decreases |s|
  {
    if s == [] {
    } else if IsSpace(s[0]) {
      FieldsAreTheWords(s[1..]);
    } else {
      var n := WordLength(s);
      FieldsAreTheWords(s[n..]);
      VisiblePrefix(s, n);
      assert Fields(s)[1..] == Fields(s[n..]);
    }
  }

  function Join(words: seq<string>): string {
    if words == [] then [] else words[0] + Join(words[1..])
  }

  function Visible(s: string): string {
    if s == [] then [] else if IsSpace(s[0]) then Visible(s[1..]) else [s[0]] + Visible(s[1..])
  }

  lemma {:induction false} VisiblePrefix(s: string, n: nat)
    requires n <= |s| && forall k :: 0 <= k < n ==> !IsSpace(s[k])
    ensures Visible(s) == s[..n] + Visible(s[n..])
    decreases n
  {
    if n == 0 {
      assert s[..0] + Visible(s[0..]) == Visible(s);
    } else {
      VisiblePrefix(s[1..], n - 1);
      assert s[1..][n - 1..] == s[n..];
      assert [s[0]] + s[1..][..n - 1] == s[..n];
    }
  }
}
