/** The JavaScript string operations the retrieval path relies on:
    `toLowerCase`, `length`, `split(" ")`, `includes` and `trim`. */
module Strings {

  /* ---------------------------------------------------------------- case */

  predicate IsUpper(c: char) {
    'A' <= c <= 'Z'
  }

  /** Lower-cases one character (ASCII letters only). */
  function LowerChar(c: char): (r: char)
    ensures !IsUpper(r)
    ensures r == c <==> !IsUpper(c)
  {
    if IsUpper(c) then (c as int + 32) as char else c
  }

  /** `s.toLowerCase()`: the character-wise image of `s` under LowerChar. */
  function Lower(s: string): string {
    seq(|s|, i requires 0 <= i < |s| => LowerChar(s[i]))
  }

  /** A string with no upper-case letter, i.e. one that lower-casing leaves alone. */
  predicate IsLowerCase(s: string) {
    forall i :: 0 <= i < |s| ==> !IsUpper(s[i])
  }

  lemma LowerIsLowerCase(s: string)
    ensures IsLowerCase(Lower(s))
    ensures Lower(Lower(s)) == Lower(s)
    ensures IsLowerCase(s) <==> Lower(s) == s
  {
    if IsLowerCase(s) {
      assert Lower(s) == s;
    }
    if Lower(s) == s {
      assert forall i :: 0 <= i < |s| ==> s[i] == LowerChar(s[i]);
    }
  }

  lemma LowerAppend(a: string, b: string)
    ensures Lower(a + b) == Lower(a) + Lower(b)
  {
    assert forall i :: 0 <= i < |a + b| ==> Lower(a + b)[i] == (Lower(a) + Lower(b))[i];
  }

  /** Lower-casing neither creates nor removes a separator that is not a letter. */
  lemma LowerKeepsSeparator(s: string, sep: char)
    requires !IsUpper(sep) && !('a' <= sep <= 'z')
    ensures sep in s <==> sep in Lower(s)
  {
    if sep in s {
      var i :| 0 <= i < |s| && s[i] == sep;
      assert Lower(s)[i] == sep;
    }
    if sep in Lower(s) {
      var i :| 0 <= i < |s| && Lower(s)[i] == sep;
      assert LowerChar(s[i]) == sep;
      assert s[i] == sep;
    }
  }

  /* -------------------------------------------------------------- length */

  /** The UTF-16 code units one character takes: two outside the Basic
      Multilingual Plane (a surrogate pair), one inside it. */
  function CodeUnits(c: char): nat {
    if c <= '\U{FFFF}' then 1 else 2
  }

  /** `s.length`: the number of UTF-16 code units of `s`. */
  function Utf16Length(s: string): (n: nat)
    ensures |s| <= n <= 2 * |s|
  {
    if s == [] then 0 else CodeUnits(s[0]) + Utf16Length(s[1..])
  }

  /** The JavaScript length equals the character count exactly when no
      character lies outside the Basic Multilingual Plane. */
  lemma {:induction false} Utf16LengthOfPlainText(s: string)
    ensures Utf16Length(s) == |s| <==> forall i :: 0 <= i < |s| ==> s[i] <= '\U{FFFF}'
  {
    if s != [] {
      Utf16LengthOfPlainText(s[1..]);
      assert forall i :: 1 <= i < |s| ==> s[1..][i - 1] == s[i];
    }
  }

  /** Lower-casing keeps the JavaScript length. */
  lemma {:induction false} LowerKeepsUtf16Length(s: string)
    ensures Utf16Length(Lower(s)) == Utf16Length(s)
  {
    if s != [] {
      LowerKeepsUtf16Length(s[1..]);
      assert Lower(s)[1..] == Lower(s[1..]);
      assert CodeUnits(LowerChar(s[0])) == CodeUnits(s[0]);
    }
  }

  /* ----------------------------------------------------------- substring */

  /** `needle` occurs in `hay` starting at position `i`. */
  ghost predicate MatchAt(hay: string, needle: string, i: int) {
    0 <= i && i + |needle| <= |hay| && hay[i..i + |needle|] == needle
  }

  /** The reference meaning of `hay.includes(needle)`. */
  ghost predicate Occurs(hay: string, needle: string) {
    exists i :: MatchAt(hay, needle, i)
  }

  /** Characters `k..` of `needle` agree with `hay` from position `i + k` on. */
  predicate MatchesFrom(hay: string, needle: string, i: nat, k: nat)
    decreases |needle| - k
  {
    if k >= |needle| then true
    else if i + k >= |hay| then false
    else if hay[i + k] != needle[k] then false
    else MatchesFrom(hay, needle, i, k + 1)
  }

  /** Some position `j >= i` starts an occurrence of `needle` in `hay`. */
  predicate IncludesFrom(hay: string, needle: string, i: nat)
    decreases |hay| - i
  {
    if i + |needle| > |hay| then false
    else if MatchesFrom(hay, needle, i, 0) then true
    else IncludesFrom(hay, needle, i + 1)
  }

  /** `hay.includes(needle)`: a left-to-right scan over start positions. */
  predicate Includes(hay: string, needle: string) {
    IncludesFrom(hay, needle, 0)
  }

  lemma {:induction false} MatchesFromSpec(hay: string, needle: string, i: nat, k: nat)
    requires i + |needle| <= |hay| && k <= |needle|
    ensures MatchesFrom(hay, needle, i, k) <==> hay[i + k..i + |needle|] == needle[k..]
    decreases |needle| - k
  {
    if k < |needle| {
      MatchesFromSpec(hay, needle, i, k + 1);
      var h := hay[i + k..i + |needle|];
      assert h == [hay[i + k]] + hay[i + k + 1..i + |needle|];
      assert needle[k..] == [needle[k]] + needle[k + 1..];
    }
  }

  lemma {:induction false} IncludesFromSpec(hay: string, needle: string, i: nat)
    ensures IncludesFrom(hay, needle, i) <==> exists j :: i <= j && MatchAt(hay, needle, j)
    decreases |hay| - i
  {
    if i + |needle| <= |hay| {
      MatchesFromSpec(hay, needle, i, 0);
      IncludesFromSpec(hay, needle, i + 1);
      assert needle[0..] == needle;
      if MatchesFrom(hay, needle, i, 0) {
        assert MatchAt(hay, needle, i);
      }
      if exists j :: i <= j && MatchAt(hay, needle, j) {
        var j :| i <= j && MatchAt(hay, needle, j);
        if j == i {
          assert MatchesFrom(hay, needle, i, 0);
        } else {
          assert i + 1 <= j && MatchAt(hay, needle, j);
        }
      }
    }
  }

  /** The scan agrees with the reference meaning. */
  lemma IncludesIffOccurs(hay: string, needle: string)
    ensures Includes(hay, needle) <==> Occurs(hay, needle)
  {
    IncludesFromSpec(hay, needle, 0);
  }

  /** An occurrence of a needle that does not contain `c` never straddles a `c`. */
  lemma {:induction false} OccursAcross(a: string, c: char, b: string, needle: string)
    requires c !in needle
    ensures Occurs(a + [c] + b, needle) <==> Occurs(a, needle) || Occurs(b, needle)
  {
    var h := a + [c] + b;
    if Occurs(h, needle) {
      var i :| MatchAt(h, needle, i);
      if i + |needle| <= |a| {
        assert h[i..i + |needle|] == a[i..i + |needle|];
        assert MatchAt(a, needle, i);
      } else if i > |a| {
        assert h[i..i + |needle|] == b[i - |a| - 1..i - |a| - 1 + |needle|];
        assert MatchAt(b, needle, i - |a| - 1);
      } else {
        NoStraddle(h, |a|, needle, i);
      }
    }
    if Occurs(a, needle) {
      var i :| MatchAt(a, needle, i);
      assert h[i..i + |needle|] == a[i..i + |needle|];
      assert MatchAt(h, needle, i);
    }
    if Occurs(b, needle) {
      var i :| MatchAt(b, needle, i);
      var j := i + |a| + 1;
      assert h[j..j + |needle|] == b[i..i + |needle|];
      assert MatchAt(h, needle, j);
    }
  }

  /** An occurrence cannot cover a position holding a character the needle lacks. */
  lemma NoStraddle(hay: string, p: int, needle: string, i: int)
    requires 0 <= p < |hay| && hay[p] !in needle
    requires i <= p < i + |needle|
    ensures !MatchAt(hay, needle, i)
  {
  }

  /* ---------------------------------------------------------------- split */

  /** `s.split(sep)` for a one-character separator: the maximal
      separator-free pieces, including empty ones between adjacent
      separators and at either end. */
  function Split(s: string, sep: char): (r: seq<string>)
    ensures |r| >= 1
  {
    if s == [] then [[]]
    else
      var rest := Split(s[1..], sep);
      if s[0] == sep then [[]] + rest
      else [[s[0]] + rest[0]] + rest[1..]
  }

  /** No piece of a split contains the separator. */
  lemma {:induction false} SplitPiecesLackSeparator(s: string, sep: char)
    ensures forall p :: p in Split(s, sep) ==> sep !in p
  {
    if s != [] {
      SplitPiecesLackSeparator(s[1..], sep);
      var rest := Split(s[1..], sep);
      if s[0] != sep {
        assert rest[0] in rest;
        assert forall p :: p in rest[1..] ==> p in rest;
      }
    }
  }

  /** `pieces.join(sep)`. */
  function Join(pieces: seq<string>, sep: char): string {
    if |pieces| == 0 then []
    else if |pieces| == 1 then pieces[0]
    else pieces[0] + [sep] + Join(pieces[1..], sep)
  }

  /** Splitting loses nothing: joining the pieces back gives the input. */
  lemma {:induction false} JoinSplit(s: string, sep: char)
    ensures Join(Split(s, sep), sep) == s
  {
    if s != [] {
      var rest := Split(s[1..], sep);
      JoinSplit(s[1..], sep);
      if s[0] == sep {
        assert Split(s, sep) == [[]] + rest;
        assert Split(s, sep)[1..] == rest;
      } else if |rest| > 1 {
        assert Join(rest, sep) == rest[0] + [sep] + Join(rest[1..], sep);
        assert Split(s, sep)[1..] == rest[1..];
        assert s == [s[0]] + s[1..];
      } else {
        assert s == [s[0]] + s[1..];
      }
    }
  }

  /** Splitting inverts joining when no piece contains the separator. */
  lemma {:induction false} SplitJoin(pieces: seq<string>, sep: char)
    requires |pieces| >= 1
    requires forall p :: p in pieces ==> sep !in p
    ensures Split(Join(pieces, sep), sep) == pieces
  {
    if |pieces| == 1 {
      SplitWithoutSeparator(pieces[0], sep);
    } else {
      var rest := pieces[1..];
      assert forall p :: p in rest ==> p in pieces;
      SplitJoin(rest, sep);
      assert Join(pieces, sep) == pieces[0] + [sep] + Join(rest, sep);
      SplitAround(pieces[0], sep, Join(rest, sep));
      SplitWithoutSeparator(pieces[0], sep);
      assert pieces == [pieces[0]] + rest;
    }
  }

  lemma {:induction false} SplitWithoutSeparator(s: string, sep: char)
    requires sep !in s
    ensures Split(s, sep) == [s]
  {
    if s != [] {
      assert sep !in s[1..];
      SplitWithoutSeparator(s[1..], sep);
      assert s == [s[0]] + s[1..];
    }
  }

  /** Splitting a text with a first character: a separator opens a new empty
      piece, any other character joins the first piece. */
  lemma SplitFirst(c: char, t: string, sep: char)
    ensures Split([c] + t, sep)
            == if c == sep then [[]] + Split(t, sep)
               else [[c] + Split(t, sep)[0]] + Split(t, sep)[1..]
  {
    assert ([c] + t)[1..] == t;
  }

  /** Extending the first piece commutes with appending further pieces. */
  lemma ExtendFirstPiece(c: char, head: seq<string>, tail: seq<string>)
    requires |head| >= 1
    ensures [[c] + (head + tail)[0]] + (head + tail)[1..] == [[c] + head[0]] + head[1..] + tail
  {
    assert (head + tail)[1..] == head[1..] + tail;
  }

  /** A separator cuts the input into two independently split halves. */
  lemma {:induction false} SplitAround(a: string, sep: char, b: string)
    ensures Split(a + [sep] + b, sep) == Split(a, sep) + Split(b, sep)
  {
    if a == [] {
      assert a + [sep] + b == [sep] + b;
      SplitFirst(sep, b, sep);
    } else {
      var t := a[1..] + [sep] + b;
      assert a + [sep] + b == [a[0]] + t;
      assert a == [a[0]] + a[1..];
      SplitAround(a[1..], sep, b);
      SplitFirst(a[0], t, sep);
      SplitFirst(a[0], a[1..], sep);
      if a[0] != sep {
        ExtendFirstPiece(a[0], Split(a[1..], sep), Split(b, sep));
      }
    }
  }

  /** A needle without the separator occurs in a joined text exactly when it
      occurs in one of the pieces. */
  lemma {:induction false} OccursInJoin(pieces: seq<string>, sep: char, needle: string)
    requires |pieces| >= 1 && sep !in needle
    ensures Occurs(Join(pieces, sep), needle) <==> exists j :: 0 <= j < |pieces| && Occurs(pieces[j], needle)
  {
    if |pieces| > 1 {
      OccursInJoin(pieces[1..], sep, needle);
      OccursAcross(pieces[0], sep, Join(pieces[1..], sep), needle);
      if exists j :: 0 <= j < |pieces| && Occurs(pieces[j], needle) {
        var j :| 0 <= j < |pieces| && Occurs(pieces[j], needle);
        if j > 0 {
          assert pieces[1..][j - 1] == pieces[j];
        }
      }
      if exists j :: 0 <= j < |pieces[1..]| && Occurs(pieces[1..][j], needle) {
        var j :| 0 <= j < |pieces[1..]| && Occurs(pieces[1..][j], needle);
        assert pieces[j + 1] == pieces[1..][j];
      }
    }
  }

  /** Every piece lower-cased. */
  function LowerAll(pieces: seq<string>): (r: seq<string>)
    ensures |r| == |pieces|
  {
    seq(|pieces|, i requires 0 <= i < |pieces| => Lower(pieces[i]))
  }

  /** Lower-casing commutes with joining on a separator that is no capital. */
  lemma {:induction false} LowerJoin(pieces: seq<string>, sep: char)
    requires !IsUpper(sep)
    ensures Lower(Join(pieces, sep)) == Join(LowerAll(pieces), sep)
  {
    if |pieces| > 1 {
      LowerJoin(pieces[1..], sep);
      assert LowerAll(pieces)[1..] == LowerAll(pieces[1..]);
      LowerAppend(pieces[0] + [sep], Join(pieces[1..], sep));
      LowerAppend(pieces[0], [sep]);
      assert Lower([sep]) == [sep];
    }
  }

  /** A needle holding a character the text lacks does not occur in it. */
  lemma MissingCharacter(hay: string, needle: string, c: char)
    requires c in needle && c !in hay
    ensures !Occurs(hay, needle)
  {
  }

  /** A lower-case letter is in the lower-cased text only when the text holds
      it in either case. */
  lemma LowerLacksLetter(s: string, c: char)
    requires 'a' <= c <= 'z'
    requires c !in s && (c as int - 32) as char !in s
    ensures c !in Lower(s)
  {
  }

  /** A needle without spaces occurs in lower-cased, space-joined words
      exactly when it occurs in one of the lower-cased words. */
  lemma IncludesInLoweredWords(words: seq<string>, needle: string)
    requires needle != [] && ' ' !in needle
    ensures Includes(Lower(Join(words, ' ')), needle)
            <==> exists j :: 0 <= j < |words| && Occurs(Lower(words[j]), needle)
  {
    IncludesIffOccurs(Lower(Join(words, ' ')), needle);
    LowerJoin(words, ' ');
    var lowered := LowerAll(words);
    if |words| == 0 {
      assert Lower(Join(words, ' ')) == [];
      assert !MatchAt([], needle, 0);
    } else {
      OccursInJoin(lowered, ' ', needle);
      assert forall j :: 0 <= j < |words| ==> lowered[j] == Lower(words[j]);
    }
  }

  /* ----------------------------------------------------------------- trim */

  /** The characters `String.prototype.trim` strips: ECMAScript WhiteSpace
      (tab, vertical tab, form feed, space, no-break space, byte order mark and
      the Unicode space separators) and LineTerminator. */
  predicate IsWhitespace(c: char) {
    || c == '\t' || c == '\U{000B}' || c == '\U{000C}' || c == ' '
    || c == '\U{00A0}' || c == '\U{FEFF}'
    || c == '\U{1680}' || ('\U{2000}' <= c <= '\U{200A}')
    || c == '\U{202F}' || c == '\U{205F}' || c == '\U{3000}'
    || c == '\n' || c == '\r' || c == '\U{2028}' || c == '\U{2029}'
  }

  predicate AllWhitespace(s: string) {
    forall i :: 0 <= i < |s| ==> IsWhitespace(s[i])
  }

  /** The first position at or after `i` that does not hold whitespace (or `|s|`). */
  function SkipLeading(s: string, i: nat): (a: nat)
    requires i <= |s|
    ensures i <= a <= |s|
    ensures forall k :: i <= k < a ==> IsWhitespace(s[k])
    ensures a < |s| ==> !IsWhitespace(s[a])
    decreases |s| - i
  {
    if i < |s| && IsWhitespace(s[i]) then SkipLeading(s, i + 1) else i
  }

  /** The position just after the last non-whitespace character before `j` (or 0). */
  function SkipTrailing(s: string, j: nat): (b: nat)
    requires j <= |s|
    ensures b <= j
    ensures forall k :: b <= k < j ==> IsWhitespace(s[k])
    ensures b > 0 ==> !IsWhitespace(s[b - 1])
  {
    if j > 0 && IsWhitespace(s[j - 1]) then SkipTrailing(s, j - 1) else j
  }

  /** `r` is `s[a..a + |r|]` and everything of `s` outside that slice is whitespace. */
  ghost predicate SliceBetweenWhitespace(s: string, r: string, a: int) {
    && 0 <= a <= |s| - |r| && r == s[a..a + |r|]
    && (forall k :: 0 <= k < a ==> IsWhitespace(s[k]))
    && (forall k :: a + |r| <= k < |s| ==> IsWhitespace(s[k]))
  }

  /** `s.trim()`: a contiguous slice of `s` with whitespace only outside it
      and no whitespace at either of its ends; empty exactly when `s` is
      all whitespace. */
  function Trim(s: string): (r: string)
    ensures exists a :: SliceBetweenWhitespace(s, r, a)
    ensures r != [] ==> !IsWhitespace(r[0]) && !IsWhitespace(r[|r| - 1])
    ensures r == [] <==> AllWhitespace(s)
  {
    var a := SkipLeading(s, 0);
    var b := SkipTrailing(s, |s|);
    if b <= a then
      assert SliceBetweenWhitespace(s, [], 0);
      []
    else
      assert SliceBetweenWhitespace(s, s[a..b], a);
      s[a..b]
  }
}
