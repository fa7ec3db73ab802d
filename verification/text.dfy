/**
 * The string operations the responder relies on, restricted to ASCII:
 * `str.lower()`, `str.title()`, the `in` substring test, `any(...)` over a
 * keyword list, and the repeated `response += line` that builds a bulleted
 * reply.
 */
module Text {

  predicate IsUpper(c: char) { 'A' <= c <= 'Z' }
  predicate IsLower(c: char) { 'a' <= c <= 'z' }
  /** An ASCII letter: the only "cased" characters of this model. */
  predicate IsLetter(c: char) { IsUpper(c) || IsLower(c) }

  function ToLowerChar(c: char): (r: char)
    ensures IsLetter(r) == IsLetter(c)
    ensures !IsUpper(r)
  {
    if IsUpper(c) then (c as int + 32) as char else c
  }

  function ToUpperChar(c: char): (r: char)
    ensures IsLetter(r) == IsLetter(c)
    ensures !IsLower(r)
    ensures ToLowerChar(r) == ToLowerChar(c)
  {
    if IsLower(c) then (c as int - 32) as char else c
  }

  /** `s.lower()` on ASCII text. */
  function Lower(s: string): (r: string)
    ensures |r| == |s|
    ensures forall i :: 0 <= i < |s| ==> r[i] == ToLowerChar(s[i])
  {
    if s == [] then [] else [ToLowerChar(s[0])] + Lower(s[1..])
  }

  /** Text with no upper-case letter is its own lower case. */
  lemma LowerKeepsLowercase(s: string)
    requires forall i :: 0 <= i < |s| ==> !IsUpper(s[i])
    ensures Lower(s) == s
  {
  }

  lemma {:induction false} LowerIdempotent(s: string)
    ensures Lower(Lower(s)) == Lower(s)
  {
    var l := Lower(s);
    assert forall i :: 0 <= i < |l| ==> Lower(l)[i] == l[i];
  }

  /** What `str.title()` makes of c, given whether the character before it is cased. */
  function TitleChar(c: char, prevCased: bool): char {
    if !IsLetter(c) then c else if prevCased then ToLowerChar(c) else ToUpperChar(c)
  }

  /** The character `str.title()` puts at position i of s. */
  function TitledAt(s: string, i: nat): char
    requires i < |s|
  {
    TitleChar(s[i], i > 0 && IsLetter(s[i - 1]))
  }

  /**
   * The scan behind `str.title()`: each character is lowered when the one
   * before it is cased and upper-cased otherwise; `prevCased` says whether
   * the character before `s` was cased.
   */
  function TitleFrom(s: string, prevCased: bool): (r: string)
    ensures |r| == |s|
    ensures forall i :: 0 <= i < |s| ==>
      r[i] == TitleChar(s[i], if i == 0 then prevCased else IsLetter(s[i - 1]))
  {
    if s == [] then []
    else
      var rest := TitleFrom(s[1..], IsLetter(s[0]));
      assert forall i :: 1 <= i < |s| ==> ([TitleChar(s[0], prevCased)] + rest)[i] == rest[i - 1];
      assert forall i :: 1 <= i < |s| ==> s[1..][i - 1] == s[i];
      [TitleChar(s[0], prevCased)] + rest
  }

  /** `s.title()` on ASCII text: every word starts upper-case, the rest of it is lower-case. */
  function TitleCase(s: string): (r: string)
    ensures |r| == |s|
    ensures forall i :: 0 <= i < |s| ==> r[i] == TitledAt(s, i)
  {
    TitleFrom(s, false)
  }

  /** A lower-case word is title-cased by upper-casing its first letter. */
  lemma TitleCaseWord(w: string)
    requires |w| > 0 && forall i :: 0 <= i < |w| ==> IsLower(w[i])
    ensures TitleCase(w) == [ToUpperChar(w[0])] + w[1..]
  {
    var t := TitleCase(w);
    forall i | 0 <= i < |w| ensures t[i] == ([ToUpperChar(w[0])] + w[1..])[i] {
      if i > 0 {
        assert IsLetter(w[i - 1]);
      }
    }
  }

  /** Title-casing twice changes nothing more. */
  lemma TitleCaseIdempotent(s: string)
    ensures TitleCase(TitleCase(s)) == TitleCase(s)
  {
    var t := TitleCase(s);
    forall i | 0 <= i < |t| ensures TitleCase(t)[i] == t[i] {
      assert IsLetter(t[i]) == IsLetter(s[i]);
      if i > 0 {
        assert IsLetter(t[i - 1]) == IsLetter(s[i - 1]);
      }
    }
  }

  /** Title-casing only changes case: the lower-cased text is the same. */
  lemma TitleCaseKeepsLetters(s: string)
    ensures Lower(TitleCase(s)) == Lower(s)
  {
    var t := TitleCase(s);
    forall i | 0 <= i < |s| ensures Lower(t)[i] == Lower(s)[i] {
      assert TitleCase(s)[i] == TitledAt(s, i);
    }
  }

  /** `needle` occurs in `hay` starting at index i. */
  predicate OccursAt(hay: string, needle: string, i: int) {
    0 <= i && i + |needle| <= |hay| && hay[i..i + |needle|] == needle
  }

  predicate StartsWith(s: string, prefix: string) {
    |prefix| <= |s| && s[..|prefix|] == prefix
  }

  /** Python's `needle in hay`: a front-to-back scan for an occurrence. */
  predicate Contains(hay: string, needle: string)
    decreases |hay|
  {
    StartsWith(hay, needle) || (|hay| > 0 && Contains(hay[1..], needle))
  }

  /** The scan finds exactly the occurrences. */
  lemma {:induction false} ContainsIffOccurs(hay: string, needle: string)
    ensures Contains(hay, needle) <==> exists i :: OccursAt(hay, needle, i)
    decreases |hay|
  {
    if StartsWith(hay, needle) {
      assert OccursAt(hay, needle, 0);
    } else if |hay| == 0 {
    } else {
      ContainsIffOccurs(hay[1..], needle);
      if exists i :: OccursAt(hay[1..], needle, i) {
        var i :| OccursAt(hay[1..], needle, i);
        assert hay[1..][i..i + |needle|] == hay[i + 1..i + 1 + |needle|];
        assert OccursAt(hay, needle, i + 1);
      }
      if exists i :: OccursAt(hay, needle, i) {
        var i :| OccursAt(hay, needle, i);
        assert i != 0;
        assert hay[1..][i - 1..i - 1 + |needle|] == hay[i..i + |needle|];
        assert OccursAt(hay[1..], needle, i - 1);
      }
    }
  }

  /** A text contains every part it is glued from. */
  lemma ContainsMiddle(pre: string, mid: string, post: string)
    ensures Contains(pre + mid + post, mid)
  {
    var s := pre + mid + post;
    assert s[|pre|..|pre| + |mid|] == mid;
    assert OccursAt(s, mid, |pre|);
    ContainsIffOccurs(s, mid);
  }

  /** A needle longer than the haystack never occurs in it. */
  lemma ContainsNoLonger(hay: string, needle: string)
    requires Contains(hay, needle)
    ensures |needle| <= |hay|
  {
    ContainsIffOccurs(hay, needle);
  }

  /** A needle whose first character never appears in the text is not contained in it. */
  lemma MissingFirstChar(hay: string, needle: string)
    requires |needle| > 0 && needle[0] !in hay
    ensures !Contains(hay, needle)
  {
    forall i | 0 <= i
      ensures !OccursAt(hay, needle, i)
    {
      if i + |needle| <= |hay| {
        assert hay[i..i + |needle|][0] == hay[i];
      }
    }
    ContainsIffOccurs(hay, needle);
  }

  /** Containment is transitive: a part of a part is a part. */
  lemma ContainsTransitive(a: string, b: string, c: string)
    requires Contains(a, b) && Contains(b, c)
    ensures Contains(a, c)
  {
    ContainsIffOccurs(a, b);
    ContainsIffOccurs(b, c);
    var i :| OccursAt(a, b, i);
    var j :| OccursAt(b, c, j);
    forall k | 0 <= k < |c|
      ensures a[i + j + k] == c[k]
    {
      assert c[k] == b[j..j + |c|][k] == b[j + k];
      assert b[j + k] == a[i..i + |b|][j + k] == a[i + j + k];
    }
    assert a[i + j..i + j + |c|] == c;
    assert OccursAt(a, c, i + j);
    ContainsIffOccurs(a, c);
  }

  /** `any(word in text for word in words)`, scanning the words in order. */
  predicate AnyKeyword(text: string, words: seq<string>) {
    |words| > 0 && (Contains(text, words[0]) || AnyKeyword(text, words[1..]))
  }

  /** The scan succeeds exactly when some word of the list occurs in the text. */
  lemma {:induction false} AnyKeywordIff(text: string, words: seq<string>)
    ensures AnyKeyword(text, words) <==> exists w :: w in words && Contains(text, w)
  {
    if words != [] {
      AnyKeywordIff(text, words[1..]);
      if exists w :: w in words && Contains(text, w) {
        var w :| w in words && Contains(text, w);
        assert w == words[0] || w in words[1..];
      }
      if AnyKeyword(text, words[1..]) {
        var w :| w in words[1..] && Contains(text, w);
        assert w in words;
      }
    }
  }

  /**
   * The text a loop of `response += line(x)` over `xs` appends: one line per
   * element, in order.
   */
  function Bullets<T>(xs: seq<T>, line: T -> string): string {
    if xs == [] then "" else Bullets(xs[..|xs| - 1], line) + line(xs[|xs| - 1])
  }

  /** The bullets of a concatenation are the bullets of each part, in order. */
  lemma {:induction false} BulletsAppend<T>(xs: seq<T>, ys: seq<T>, line: T -> string)
    ensures Bullets(xs + ys, line) == Bullets(xs, line) + Bullets(ys, line)
    decreases |ys|
  {
    if ys == [] {
      assert xs + ys == xs;
    } else {
      var n := |ys| - 1;
      assert (xs + ys)[..|xs + ys| - 1] == xs + ys[..n];
      BulletsAppend(xs, ys[..n], line);
    }
  }

  /** Extending a prefix by one element adds that element's line. */
  lemma BulletsPrefix<T>(xs: seq<T>, i: nat, line: T -> string)
    requires i < |xs|
    ensures Bullets(xs[..i + 1], line) == Bullets(xs[..i], line) + line(xs[i])
  {
    assert xs[..i + 1][..i] == xs[..i];
  }

  /** One element gives exactly its own line. */
  lemma BulletsSingle<T>(x: T, line: T -> string)
    ensures Bullets([x], line) == line(x)
  {
    assert [x][..0] == [];
  }
}
