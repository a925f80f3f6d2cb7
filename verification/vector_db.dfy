/** The mock vector database: documents, keyword extraction, scoring and
    the perturbed top-K ranking over any list of documents. */
module VectorDb {
  import opened Wrappers
  import opened Strings

  /* --------------------------------------------------------------- data */

  datatype Metadata = Metadata(source: string, title: string, page: Option<int>, url: Option<string>)

  /** A document. Its content is kept as the list of its space-separated
      words and `Content` joins them back; every string is the join of its
      own split (`Strings.JoinSplit`), so no content is out of reach. */
  datatype Document = Document(id: string, words: seq<string>, metadata: Metadata) {

    /** The content string, the words separated by single spaces. */
    function Content(): string {
      Join(words, ' ')
    }
  }

  /** No two elements of `xs` are equal. */
  predicate NoDuplicates<T(==)>(xs: seq<T>) {
    forall i, j :: 0 <= i < j < |xs| ==> xs[i] != xs[j]
  }

  /** No two documents of `docs` share an id. */
  predicate DistinctIds(docs: seq<Document>) {
    forall i, j :: 0 <= i < j < |docs| ==> docs[i].id != docs[j].id
  }

  /** Documents drawn without repeats from a list with distinct ids have
      distinct ids too. */
  lemma DistinctIdsOfSelection(docs: seq<Document>, picked: seq<Document>)
    requires DistinctIds(docs) && NoDuplicates(picked)
    requires forall d :: d in picked ==> d in docs
    ensures DistinctIds(picked)
  {
    forall i, j | 0 <= i < j < |picked|
      ensures picked[i].id != picked[j].id
    {
      assert picked[i] in docs && picked[j] in docs;
      var a :| 0 <= a < |docs| && docs[a] == picked[i];
      var b :| 0 <= b < |docs| && docs[b] == picked[j];
      assert a != b;
    }
  }

  /* ----------------------------------------------------------- keywords */

  /** The pieces whose JavaScript `length` (UTF-16 code units) exceeds three,
      in order and with repeats. */
  function LongPieces(pieces: seq<string>): seq<string> {
    if pieces == [] then []
    else (if Utf16Length(pieces[0]) > 3 then [pieces[0]] else []) + LongPieces(pieces[1..])
  }

  /** The long pieces are exactly the pieces longer than three code units. */
  lemma {:induction false} LongPiecesMembers(pieces: seq<string>)
    ensures |LongPieces(pieces)| <= |pieces|
    ensures forall w :: w in LongPieces(pieces) <==> w in pieces && Utf16Length(w) > 3
  {
    if pieces != [] {
      LongPiecesMembers(pieces[1..]);
      assert pieces == [pieces[0]] + pieces[1..];
    }
  }

  /** The query's keywords: lower-cased, split on single spaces, and only the
      pieces longer than three UTF-16 code units kept. */
  function Keywords(query: string): (keywords: seq<string>)
    ensures forall k :: k in keywords <==> k in Split(Lower(query), ' ') && Utf16Length(k) > 3
  {
    LongPiecesMembers(Split(Lower(query), ' '));
    LongPieces(Split(Lower(query), ' '))
  }

  /** Every keyword is a lower-case word of more than three code units. */
  lemma KeywordsAreLowerWords(query: string)
    ensures forall k :: k in Keywords(query) ==> Utf16Length(k) > 3 && ' ' !in k && IsLowerCase(k)
  {
    SplitPiecesLackSeparator(Lower(query), ' ');
    SplitPieceChars(Lower(query), ' ');
    LowerIsLowerCase(query);
    forall k | k in Keywords(query)
      ensures IsLowerCase(k)
    {
      forall i | 0 <= i < |k|
        ensures !IsUpper(k[i])
      {
        assert k[i] in k;
        var j :| 0 <= j < |Lower(query)| && Lower(query)[j] == k[i];
      }
    }
  }

  /** Every character of a split piece comes from the split string. */
  lemma {:induction false} SplitPieceChars(s: string, sep: char)
    ensures forall p, c :: p in Split(s, sep) && c in p ==> c in s
  {
    if s != [] {
      SplitPieceChars(s[1..], sep);
      var rest := Split(s[1..], sep);
      if s[0] != sep {
        assert rest[0] in rest;
        assert forall p :: p in rest[1..] ==> p in rest;
      }
    }
  }

  /** A trailing word of at most three code units (possibly empty, as after a
      doubled space) never changes the keywords. */
  lemma ShortWordsAreIgnored(query: string, word: string)
    requires Utf16Length(word) <= 3 && ' ' !in word
    ensures Keywords(query + " " + word) == Keywords(query)
  {
    LowerAppend(query + " ", word);
    LowerAppend(query, " ");
    assert Lower(" ") == " ";
    LowerKeepsSeparator(word, ' ');
    LowerKeepsUtf16Length(word);
    SplitAround(Lower(query), ' ', Lower(word));
    assert Lower(query + " " + word) == Lower(query) + [' '] + Lower(word);
    SplitWithoutSeparator(Lower(word), ' ');
    LongPiecesAppend(Split(Lower(query), ' '), [Lower(word)]);
    assert LongPieces([Lower(word)]) == [] by {
      assert [Lower(word)][1..] == [];
    }
  }

  lemma LongPiecesCons(x: string, t: seq<string>)
    ensures LongPieces([x] + t) == (if Utf16Length(x) > 3 then [x] else []) + LongPieces(t)
  {
    assert ([x] + t)[1..] == t;
  }

  /** Filtering a concatenation filters each part. */
  lemma {:induction false} LongPiecesAppend(a: seq<string>, b: seq<string>)
    ensures LongPieces(a + b) == LongPieces(a) + LongPieces(b)
  {
    if a != [] {
      LongPiecesAppend(a[1..], b);
      assert a + b == [a[0]] + (a[1..] + b);
      assert a == [a[0]] + a[1..];
      LongPiecesCons(a[0], a[1..] + b);
      LongPiecesCons(a[0], a[1..]);
    } else {
      assert a + b == b;
    }
  }

  /* ------------------------------------------------------------ scoring */

  /** The points one keyword earns: 2 for a match in the content, 3 for a
      match in the title (both already lower-cased). */
  function KeywordPoints(contentLower: string, titleLower: string, keyword: string): nat {
    (if Includes(contentLower, keyword) then 2 else 0) + (if Includes(titleLower, keyword) then 3 else 0)
  }

  /** The points of all keywords, accumulated in keyword order. */
  function ScoreKeywords(contentLower: string, titleLower: string, keywords: seq<string>): (score: nat)
    ensures score <= 5 * |keywords|
  {
    if keywords == [] then 0
    else
      var n := |keywords| - 1;
      ScoreKeywords(contentLower, titleLower, keywords[..n]) + KeywordPoints(contentLower, titleLower, keywords[n])
  }

  /** The integer part of a document's score. */
  function BaseScore(doc: Document, keywords: seq<string>): nat {
    ScoreKeywords(Lower(doc.Content()), Lower(doc.metadata.title), keywords)
  }

  /** The positions of the keywords that occur in `text`; repeats count separately. */
  ghost function Hits(text: string, keywords: seq<string>): set<int> {
    set i | 0 <= i < |keywords| && Occurs(text, keywords[i])
  }

  /** The base score is 2 per keyword found in the content plus 3 per keyword
      found in the title. */
  lemma BaseScoreCounts(doc: Document, keywords: seq<string>)
    ensures BaseScore(doc, keywords)
            == 2 * |Hits(Lower(doc.Content()), keywords)| + 3 * |Hits(Lower(doc.metadata.title), keywords)|
  {
    ScoreKeywordsCounts(Lower(doc.Content()), Lower(doc.metadata.title), keywords);
  }

  lemma {:induction false} ScoreKeywordsCounts(content: string, title: string, keywords: seq<string>)
    ensures ScoreKeywords(content, title, keywords) == 2 * |Hits(content, keywords)| + 3 * |Hits(title, keywords)|
  {
    if keywords == [] {
      assert Hits(content, keywords) == {};
      assert Hits(title, keywords) == {};
    } else {
      var n := |keywords| - 1;
      var prefix := keywords[..n];
      ScoreKeywordsCounts(content, title, prefix);
      HitsExtend(content, keywords);
      HitsExtend(title, keywords);
    }
  }

  /** Adding a keyword at the end adds its own position to the hits when it occurs. */
  lemma HitsExtend(text: string, keywords: seq<string>)
    requires keywords != []
    ensures var n := |keywords| - 1;
            |Hits(text, keywords)| == |Hits(text, keywords[..n])| + if Includes(text, keywords[n]) then 1 else 0
  {
    var n := |keywords| - 1;
    var before := Hits(text, keywords[..n]);
    IncludesIffOccurs(text, keywords[n]);
    if Occurs(text, keywords[n]) {
      assert Hits(text, keywords) == before + {n};
      assert n !in before;
    } else {
      assert Hits(text, keywords) == before;
    }
  }

  /** Title matches outweigh body matches: of two documents with the same
      content, the one whose title contains every keyword outscores the one
      whose title contains none, by 3 points per keyword. */
  lemma {:induction false} TitleMatchesOutweighBody(a: Document, b: Document, keywords: seq<string>)
    requires a.Content() == b.Content()
    requires forall k :: k in keywords ==> Includes(Lower(a.metadata.title), k) && !Includes(Lower(b.metadata.title), k)
    ensures BaseScore(a, keywords) == BaseScore(b, keywords) + 3 * |keywords|
  {
    if keywords != [] {
      var n := |keywords| - 1;
      assert keywords[n] in keywords;
      assert forall k :: k in keywords[..n] ==> k in keywords;
      TitleMatchesOutweighBody(a, b, keywords[..n]);
    }
  }

  /* ------------------------------------------------------------ ranking */

  /** A document with its base score and its total (base plus perturbation). */
  datatype Scored = Scored(doc: Document, base: int, total: real)

  /** The perturbation each document's score receives. `Math.random() * 0.5`
      lies in [0, 0.5), but adding it to an integer score in floating point
      may round the sum up to the next half, so each value is taken in
      [0, 0.5]: the amount by which the computed score exceeds the base. */
  predicate ValidNoise(noise: seq<real>) {
    forall i :: 0 <= i < |noise| ==> 0.0 <= noise[i] <= 0.5
  }

  /** The total exceeds the base score by at most one half. */
  ghost predicate Perturbed(x: Scored) {
    0.0 <= x.total - x.base as real <= 0.5
  }

  /** Scores every document; the `i`-th perturbation goes to the `i`-th document. */
  function ScoreDocuments(docs: seq<Document>, keywords: seq<string>, noise: seq<real>): (scored: seq<Scored>)
    requires |noise| == |docs|
  {
    seq(|docs|, i requires 0 <= i < |docs| =>
      Scored(docs[i], BaseScore(docs[i], keywords), BaseScore(docs[i], keywords) as real + noise[i]))
  }

  ghost predicate SortedByTotal(s: seq<Scored>) {
    forall i, j :: 0 <= i < j < |s| ==> s[i].total >= s[j].total
  }

  ghost predicate SortedByBase(s: seq<Scored>) {
    forall i, j :: 0 <= i < j < |s| ==> s[i].base >= s[j].base
  }

  /** Places `x` before the first element whose total is not above it. */
  function Insert(x: Scored, s: seq<Scored>): (r: seq<Scored>)
    ensures |r| == |s| + 1
    ensures multiset(r) == multiset(s) + multiset{x}
  {
    if s == [] || x.total >= s[0].total then [x] + s
    else
      assert s == [s[0]] + s[1..];
      [s[0]] + Insert(x, s[1..])
  }

  /** `sort((a, b) => b.score - a.score)`: a stable sort by descending total,
      built by inserting each element in front of its equals. */
  function SortByScore(s: seq<Scored>): (r: seq<Scored>)
    ensures |r| == |s|
    ensures multiset(r) == multiset(s)
  {
    if s == [] then []
    else
      assert s == [s[0]] + s[1..];
      Insert(s[0], SortByScore(s[1..]))
  }

  lemma {:induction false} InsertSorted(x: Scored, s: seq<Scored>)
    requires SortedByTotal(s)
    ensures SortedByTotal(Insert(x, s))
  {
    if s != [] && x.total < s[0].total {
      var t := Insert(x, s[1..]);
      InsertSorted(x, s[1..]);
      forall k | 0 <= k < |t|
        ensures t[k].total <= s[0].total
      {
        assert t[k] in multiset(t);
        if t[k] != x {
          assert t[k] in multiset(s[1..]);
          var m :| 0 <= m < |s[1..]| && s[1..][m] == t[k];
          assert s[m + 1] == t[k];
        }
      }
      var r := [s[0]] + t;
      assert forall i, j :: 0 < i < j < |r| ==> r[i] == t[i - 1] && r[j] == t[j - 1];
    }
  }

  /** The sorted sequence is in non-increasing order of total score. */
  lemma {:induction false} SortByScoreSorted(s: seq<Scored>)
    ensures SortedByTotal(SortByScore(s))
  {
    if s != [] {
      SortByScoreSorted(s[1..]);
      InsertSorted(s[0], SortByScore(s[1..]));
    }
  }

  /** Base scores are integers and perturbations are at most one half, so an
      order by total is also an order by base score: a strictly higher base
      score always ranks first, whatever the random values. */
  lemma PerturbationKeepsBaseOrder(s: seq<Scored>)
    requires SortedByTotal(s)
    requires forall x :: x in s ==> Perturbed(x)
    ensures SortedByBase(s)
  {
    forall i, j | 0 <= i < j < |s|
      ensures s[i].base >= s[j].base
    {
      assert s[i] in s && s[j] in s;
    }
  }

  /** No two entries are about the same document. */
  ghost predicate DistinctDocs(s: seq<Scored>) {
    forall i, j :: 0 <= i < j < |s| ==> s[i].doc != s[j].doc
  }

  lemma {:induction false} DistinctDocsOccurOnce(s: seq<Scored>, x: Scored)
    requires DistinctDocs(s)
    ensures multiset(s)[x] <= 1
  {
    if s != [] {
      assert s == [s[0]] + s[1..];
      DistinctDocsOccurOnce(s[1..], x);
      if s[0] == x {
        assert x !in s[1..];
      }
    }
  }

  lemma TwiceCountsTwice(t: seq<Scored>, i: int, j: int)
    requires 0 <= i < j < |t| && t[i] == t[j]
    ensures multiset(t)[t[i]] >= 2
  {
    assert t == t[..j] + [t[j]] + t[j + 1..];
    assert t[i] in t[..j];
  }

  /** Reordering keeps the documents distinct. */
  lemma PermutationKeepsDistinctDocs(s: seq<Scored>, t: seq<Scored>)
    requires multiset(s) == multiset(t) && DistinctDocs(s)
    ensures DistinctDocs(t)
  {
    forall i, j | 0 <= i < j < |t|
      ensures t[i].doc != t[j].doc
    {
      assert t[i] in multiset(s) && t[j] in multiset(s);
      if t[i] == t[j] {
        TwiceCountsTwice(t, i, j);
        DistinctDocsOccurOnce(s, t[i]);
      } else {
        var a :| 0 <= a < |s| && s[a] == t[i];
        var b :| 0 <= b < |s| && s[b] == t[j];
        assert a != b;
      }
    }
  }

  /** The scored documents sorted by descending total score. */
  function Rank(docs: seq<Document>, keywords: seq<string>, noise: seq<real>): (ranked: seq<Scored>)
    requires |noise| == |docs|
    ensures |ranked| == |docs|
  {
    SortByScore(ScoreDocuments(docs, keywords, noise))
  }

  /** The ranking holds every document once, each with its own base score and
      a total at most one half above it, in non-increasing order of total
      and hence of base score; distinct documents stay distinct. */
  lemma RankFacts(docs: seq<Document>, keywords: seq<string>, noise: seq<real>)
    requires |noise| == |docs| && ValidNoise(noise)
    ensures var ranked := Rank(docs, keywords, noise);
            && |ranked| == |docs|
            && multiset(ranked) == multiset(ScoreDocuments(docs, keywords, noise))
            && (forall x :: x in ranked ==> x.doc in docs && x.base == BaseScore(x.doc, keywords) && Perturbed(x))
            && (NoDuplicates(docs) ==> DistinctDocs(ranked))
            && SortedByTotal(ranked)
            && SortedByBase(ranked)
  {
    var scored := ScoreDocuments(docs, keywords, noise);
    var ranked := Rank(docs, keywords, noise);
    assert |ranked| == |multiset(ranked)| == |multiset(scored)| == |scored|;
    forall x | x in ranked
      ensures x.doc in docs && x.base == BaseScore(x.doc, keywords) && Perturbed(x)
    {
      assert x in multiset(scored);
      var a :| 0 <= a < |scored| && scored[a] == x;
    }
    if NoDuplicates(docs) {
      PermutationKeepsDistinctDocs(scored, ranked);
    }
    SortByScoreSorted(scored);
    PerturbationKeepsBaseOrder(ranked);
  }

  /* ------------------------------------------------------------- search */

  /** Whether `slice(0, end)` on a sequence of length `len` keeps the item at
      index `k`: when `k` is below `end`, or, for a negative `end`, when at
      least `-end` items follow it. */
  predicate KeptBySlice(len: nat, end: int, k: nat) {
    if end < 0 then k < len + end else k < end
  }

  /** The end index of `slice(0, end)` on a sequence of length `len`: the
      kept items are exactly the ones before it. */
  function SliceEnd(len: nat, end: int): (n: nat)
    ensures n <= len
    ensures forall k: nat :: k < len ==> (k < n <==> KeptBySlice(len, end, k))
  {
    if end < 0 then (if len + end > 0 then len + end else 0)
    else if end < len then end
    else len
  }

  /** The documents ranked by keyword score plus perturbation, cut to the
      first `topK` as `slice(0, topK)` does. */
  function TopK(docs: seq<Document>, keywords: seq<string>, topK: int, noise: seq<real>): (r: seq<Document>)
    requires |noise| == |docs| && ValidNoise(noise)
    ensures |r| == SliceEnd(|docs|, topK)
    ensures forall d :: d in r ==> d in docs
    ensures NoDuplicates(docs) ==> NoDuplicates(r)
    ensures forall i :: 0 <= i < |r| ==> r[i] == Rank(docs, keywords, noise)[i].doc
  {
    var ranked := Rank(docs, keywords, noise);
    RankFacts(docs, keywords, noise);
    var n := SliceEnd(|ranked|, topK);
    var r := seq(n, i requires 0 <= i < n => ranked[i].doc);
    assert forall d :: d in r ==> d in docs by {
      forall d | d in r
        ensures d in docs
      {
        var i :| 0 <= i < n && r[i] == d;
        assert ranked[i] in ranked;
      }
    }
    r
  }

  /** Results appear in non-increasing order of total score: each is the
      document of the ranking entry at its position, and the ranking's
      totals never increase. */
  lemma TopKOrderedByTotal(docs: seq<Document>, keywords: seq<string>, topK: int, noise: seq<real>)
    requires |noise| == |docs| && ValidNoise(noise)
    ensures var r := TopK(docs, keywords, topK, noise);
            var ranked := Rank(docs, keywords, noise);
            && (forall i :: 0 <= i < |r| ==> r[i] == ranked[i].doc && ranked[i].base == BaseScore(r[i], keywords))
            && (forall i, j :: 0 <= i < j < |r| ==> ranked[i].total >= ranked[j].total)
  {
    var r := TopK(docs, keywords, topK, noise);
    var ranked := Rank(docs, keywords, noise);
    RankFacts(docs, keywords, noise);
    forall i | 0 <= i < |r|
      ensures ranked[i].base == BaseScore(r[i], keywords)
    {
      assert ranked[i] in ranked;
    }
  }

  /** Results appear in non-increasing order of base score. */
  lemma TopKOrderedByBaseScore(docs: seq<Document>, keywords: seq<string>, topK: int, noise: seq<real>)
    requires |noise| == |docs| && ValidNoise(noise)
    ensures var r := TopK(docs, keywords, topK, noise);
            forall i, j :: 0 <= i < j < |r| ==> BaseScore(r[i], keywords) >= BaseScore(r[j], keywords)
  {
    var r := TopK(docs, keywords, topK, noise);
    var ranked := Rank(docs, keywords, noise);
    RankFacts(docs, keywords, noise);
    forall i, j | 0 <= i < j < |r|
      ensures BaseScore(r[i], keywords) >= BaseScore(r[j], keywords)
    {
      assert ranked[i] in ranked && ranked[j] in ranked;
    }
  }

  /** Every document left out of the result has a base score no higher than
      that of any document returned, whatever the perturbations. */
  lemma TopKKeepsHighestBaseScores(docs: seq<Document>, keywords: seq<string>, topK: int, noise: seq<real>,
                                   left: Document, kept: Document)
    requires |noise| == |docs| && ValidNoise(noise)
    requires left in docs && left !in TopK(docs, keywords, topK, noise)
    requires kept in TopK(docs, keywords, topK, noise)
    ensures BaseScore(left, keywords) <= BaseScore(kept, keywords)
  {
    var r := TopK(docs, keywords, topK, noise);
    var ranked := Rank(docs, keywords, noise);
    var scored := ScoreDocuments(docs, keywords, noise);
    RankFacts(docs, keywords, noise);
    var i :| 0 <= i < |r| && r[i] == kept;
    var a :| 0 <= a < |docs| && docs[a] == left;
    assert scored[a] in multiset(ranked);
    var j :| 0 <= j < |ranked| && ranked[j] == scored[a];
    assert ranked[i] in ranked && ranked[j] in ranked;
  }

  /** A sequence has at most as many distinct elements as positions, and
      exactly as many when no element repeats. */
  lemma {:induction false} DistinctElements<T>(s: seq<T>)
    ensures |set x | x in s| <= |s|
    ensures NoDuplicates(s) ==> |set x | x in s| == |s|
  {
    if s != [] {
      var rest := s[1..];
      DistinctElements(rest);
      assert (set x | x in s) == (set x | x in rest) + {s[0]};
      if NoDuplicates(s) {
        assert NoDuplicates(rest) by {
          forall i, j | 0 <= i < j < |rest|
            ensures rest[i] != rest[j]
          {
            assert rest[i] == s[i + 1] && rest[j] == s[j + 1];
          }
        }
      }
    }
  }

  lemma SubsetIsSmaller<T>(a: set<T>, b: set<T>)
    requires a <= b
    ensures |a| <= |b|
  {
    assert b == a + (b - a);
  }

  /** A document that scores strictly higher than every other document is
      returned first, whatever the perturbations. */
  lemma TopScorerComesFirst(docs: seq<Document>, keywords: seq<string>, topK: int, noise: seq<real>, best: Document)
    requires |noise| == |docs| && ValidNoise(noise)
    requires best in docs
    requires forall d :: d in docs && d != best ==> BaseScore(d, keywords) < BaseScore(best, keywords)
    requires SliceEnd(|docs|, topK) >= 1
    ensures TopK(docs, keywords, topK, noise)[0] == best
  {
    var ranked := Rank(docs, keywords, noise);
    var scored := ScoreDocuments(docs, keywords, noise);
    RankFacts(docs, keywords, noise);
    var a :| 0 <= a < |docs| && docs[a] == best;
    assert scored[a] in multiset(ranked);
    var p :| 0 <= p < |ranked| && ranked[p] == scored[a];
    assert ranked[0] in ranked;
    if p != 0 {
      assert ranked[0].base >= ranked[p].base;
    }
  }

  /** In a list sorted by base score, an entry scoring strictly higher than
      the `i`-th one comes before it. */
  lemma HigherBaseComesEarlier(ranked: seq<Scored>, x: Scored, i: int)
    requires SortedByBase(ranked) && 0 <= i < |ranked|
    requires x in ranked && x.base > ranked[i].base
    ensures x in ranked[..i]
  {
    var p :| 0 <= p < |ranked| && ranked[p] == x;
    if p >= i {
      assert false;
    }
    assert ranked[..i][p] == x;
  }

  /** Every document scoring strictly higher than the `i`-th result is
      among the results before it. */
  lemma HigherScoresComeEarlier(docs: seq<Document>, keywords: seq<string>, topK: int, noise: seq<real>,
                                i: int, b: Document)
    requires |noise| == |docs| && ValidNoise(noise)
    requires 0 <= i < |TopK(docs, keywords, topK, noise)|
    requires b in docs && BaseScore(b, keywords) > BaseScore(TopK(docs, keywords, topK, noise)[i], keywords)
    ensures b in TopK(docs, keywords, topK, noise)[..i]
  {
    var r := TopK(docs, keywords, topK, noise);
    var ranked := Rank(docs, keywords, noise);
    var scored := ScoreDocuments(docs, keywords, noise);
    RankFacts(docs, keywords, noise);
    var a :| 0 <= a < |docs| && docs[a] == b;
    var x := scored[a];
    assert x in multiset(ranked);
    assert ranked[i] in ranked;
    HigherBaseComesEarlier(ranked, x, i);
    var p :| 0 <= p < i && ranked[p] == x;
    assert r[..i][p] == b;
  }

  /** A document outscored by at least `topK` other documents is never
      returned, whatever the perturbations. */
  lemma OutscoredIsLeftOut(docs: seq<Document>, keywords: seq<string>, topK: int, noise: seq<real>,
                           d: Document, better: seq<Document>)
    requires |noise| == |docs| && ValidNoise(noise)
    requires NoDuplicates(better) && |better| >= SliceEnd(|docs|, topK)
    requires forall b :: b in better ==> b in docs && BaseScore(b, keywords) > BaseScore(d, keywords)
    ensures d !in TopK(docs, keywords, topK, noise)
  {
    var r := TopK(docs, keywords, topK, noise);
    if d in r {
      var i :| 0 <= i < |r| && r[i] == d;
      var ahead := r[..i];
      forall b | b in better
        ensures b in ahead
      {
        HigherScoresComeEarlier(docs, keywords, topK, noise, i, b);
      }
      DistinctElements(better);
      DistinctElements(ahead);
      SubsetIsSmaller(set x | x in better, set x | x in ahead);
    }
  }
}
