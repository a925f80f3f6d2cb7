/** A worked search: the query "data governance" against the DMBOK
    collection with the top three kept, for every choice of perturbations. */
module SearchExample {
  import opened Strings
  import opened VectorDb
  import opened Collections

  const Query: string := "data governance"

  /** The keywords the query yields. */
  const Terms: seq<string> := ["data", "governance"]

  /** The query is already lower-case. */
  lemma QueryIsLower()
    ensures Lower(Query) == Query
  {
    assert IsLowerCase(Query);
    LowerIsLowerCase(Query);
  }

  /** The query is its two terms joined by a space. */
  lemma QueryIsJoin()
    ensures Query == Join(Terms, ' ')
  {
    assert Terms[1..][1..] == [];
  }

  /** Both terms are longer than three code units. */
  lemma TermsAreLong()
    ensures LongPieces(Terms) == Terms
  {
    assert Terms[1..][1..] == [];
  }

  lemma QueryKeywords()
    ensures Keywords(Query) == Terms
  {
    QueryIsLower();
    QueryIsJoin();
    SplitJoin(Terms, ' ');
    TermsAreLong();
  }

  /** With two keywords the base score is the points of each. */
  lemma TwoKeywordScore(doc: Document)
    ensures BaseScore(doc, Terms)
            == KeywordPoints(Lower(doc.Content()), Lower(doc.metadata.title), "data")
               + KeywordPoints(Lower(doc.Content()), Lower(doc.metadata.title), "governance")
  {
    var content, title := Lower(doc.Content()), Lower(doc.metadata.title);
    assert Terms[..1] == ["data"] && ["data"][..0] == [];
    assert ScoreKeywords(content, title, ["data"]) == KeywordPoints(content, title, "data");
  }

  /* Matching one keyword against a document, word by word. */

  /** A content word starting with the keyword puts it in the content. */
  lemma ContentHas(doc: Document, keyword: string, j: int, rest: string)
    requires keyword != [] && ' ' !in keyword
    requires 0 <= j < |doc.words| && Lower(doc.words[j]) == keyword + rest
    ensures Includes(Lower(doc.Content()), keyword)
  {
    IncludesInLoweredWords(doc.words, keyword);
    assert MatchAt(Lower(doc.words[j]), keyword, 0);
  }

  /** When every content word long enough to hold the keyword is listed in
      `long` and lacks it, the content lacks it. */
  lemma ContentLacks(doc: Document, keyword: string, long: set<int>)
    requires keyword != [] && ' ' !in keyword
    requires forall j :: 0 <= j < |doc.words| ==> |doc.words[j]| < |keyword| || j in long
    requires forall j :: j in long ==> 0 <= j < |doc.words| && !Occurs(Lower(doc.words[j]), keyword)
    ensures !Includes(Lower(doc.Content()), keyword)
  {
    IncludesInLoweredWords(doc.words, keyword);
  }

  /** A text with a word that lower-cases to the keyword holds the keyword. */
  lemma TextHas(before: string, word: string, after: string, keyword: string)
    requires Lower(word) == keyword
    ensures Includes(Lower(before + word + after), keyword)
  {
    LowerAppend(before + word, after);
    LowerAppend(before, word);
    var text := Lower(before) + keyword + Lower(after);
    assert text[|before|..|before| + |keyword|] == keyword;
    assert MatchAt(text, keyword, |before|);
    IncludesIffOccurs(text, keyword);
  }

  /** Two texts joined by a space, each lacking a letter of a keyword without
      spaces, lack the keyword. */
  lemma TextLacksAcross(first: string, second: string, keyword: string, c: char, d: char)
    requires ' ' !in keyword
    requires LacksLetter(first, c) && c in keyword
    requires LacksLetter(second, d) && d in keyword
    ensures !Includes(Lower(first + " " + second), keyword)
  {
    assert Join([first, second], ' ') == first + " " + second;
    IncludesInLoweredWords([first, second], keyword);
    WordLacksLetter(first, keyword, c);
    WordLacksLetter(second, keyword, d);
  }

  /** A text lacking, in either case, a letter of the keyword lacks the keyword. */
  lemma TextLacksLetter(text: string, keyword: string, c: char)
    requires LacksLetter(text, c) && c in keyword
    ensures !Includes(Lower(text), keyword)
  {
    WordLacksLetter(text, keyword, c);
    IncludesIffOccurs(Lower(text), keyword);
  }

  /** `word` holds the lower-case letter `c` in neither case. */
  predicate LacksLetter(word: string, c: char) {
    'a' <= c <= 'z' && c !in word && (c as int - 32) as char !in word
  }

  /** A word lacking, in either case, a letter of the keyword cannot hold it. */
  lemma WordLacksLetter(word: string, keyword: string, c: char)
    requires LacksLetter(word, c) && c in keyword
    ensures !Occurs(Lower(word), keyword)
  {
    LowerLacksLetter(word, c);
    MissingCharacter(Lower(word), keyword, c);
  }

  /* dmbok-1: content and title against each keyword. */

  lemma Dmbok1ContentHasData()
    ensures Includes(Lower(Dmbok1.Content()), "data")
  {
    ContentHas(Dmbok1, "data", 0, "");
  }

  /** The words of dmbok-1's content long enough to hold "governance". */
  lemma Dmbok1LongWords()
    ensures forall j :: 0 <= j < |Dmbok1.words| ==> |Dmbok1.words[j]| < 10 || j in {1, 4, 5, 7, 25, 27, 29}
  {
  }

  lemma Dmbok1Word1LacksGovernance()
    ensures !Occurs(Lower(Dmbok1.words[1]), "governance")
  {
    WordLacksLetter(Dmbok1.words[1], "governance", 'o');
  }

  lemma Dmbok1Word4LacksGovernance()
    ensures !Occurs(Lower(Dmbok1.words[4]), "governance")
  {
    WordLacksLetter(Dmbok1.words[4], "governance", 'g');
  }

  lemma Dmbok1Word5LacksGovernance()
    ensures !Occurs(Lower(Dmbok1.words[5]), "governance")
  {
    WordLacksLetter(Dmbok1.words[5], "governance", 'g');
  }

  lemma Dmbok1Word7LacksGovernance()
    ensures !Occurs(Lower(Dmbok1.words[7]), "governance")
  {
    WordLacksLetter(Dmbok1.words[7], "governance", 'g');
  }

  lemma Dmbok1Word25LacksGovernance()
    ensures !Occurs(Lower(Dmbok1.words[25]), "governance")
  {
    WordLacksLetter(Dmbok1.words[25], "governance", 'g');
  }

  lemma Dmbok1Word27LacksGovernance()
    ensures !Occurs(Lower(Dmbok1.words[27]), "governance")
  {
    WordLacksLetter(Dmbok1.words[27], "governance", 'v');
  }

  lemma Dmbok1Word29LacksGovernance()
    ensures !Occurs(Lower(Dmbok1.words[29]), "governance")
  {
    WordLacksLetter(Dmbok1.words[29], "governance", 'g');
  }

  /** Each long word of dmbok-1's content lacks a letter of "governance". */
  lemma Dmbok1ContentLacksGovernance()
    ensures !Includes(Lower(Dmbok1.Content()), "governance")
  {
    Dmbok1LongWords();
    Dmbok1Word1LacksGovernance();
    Dmbok1Word4LacksGovernance();
    Dmbok1Word5LacksGovernance();
    Dmbok1Word7LacksGovernance();
    Dmbok1Word25LacksGovernance();
    Dmbok1Word27LacksGovernance();
    Dmbok1Word29LacksGovernance();
    ContentLacks(Dmbok1, "governance", {1, 4, 5, 7, 25, 27, 29});
  }

  lemma Dmbok1TitleIs()
    ensures Dmbok1.metadata.title == "Introduction to Data Management"
  {
  }

  lemma Title1HasData()
    ensures Includes(Lower("Introduction to Data Management"), "data")
  {
    assert "Introduction to Data Management" == "Introduction to " + "Data" + " Management";
    TextHas("Introduction to ", "Data", " Management", "data");
  }

  lemma Dmbok1TitleHasData()
    ensures Includes(Lower(Dmbok1.metadata.title), "data")
  {
    Dmbok1TitleIs();
    Title1HasData();
  }

  lemma Title1LacksGovernance()
    ensures !Includes(Lower("Introduction to Data Management"), "governance")
  {
    TextLacksLetter("Introduction to Data Management", "governance", 'v');
  }

  lemma Dmbok1TitleLacksGovernance()
    ensures !Includes(Lower(Dmbok1.metadata.title), "governance")
  {
    Dmbok1TitleIs();
    Title1LacksGovernance();
  }

  /* dmbok-2: content and title against each keyword. */

  lemma Dmbok2ContentHasData()
    ensures Includes(Lower(Dmbok2.Content()), "data")
  {
    ContentHas(Dmbok2, "data", 3, "");
  }

  lemma Dmbok2ContentHasGovernance()
    ensures Includes(Lower(Dmbok2.Content()), "governance")
  {
    ContentHas(Dmbok2, "governance", 14, ",");
  }

  lemma Dmbok2TitleIs()
    ensures Dmbok2.metadata.title == "CDMP Certification Overview"
  {
  }

  lemma Title2Halves()
    ensures "CDMP Certification Overview" == "CDMP" + " " + "Certification Overview"
  {
  }

  lemma Title2HalvesLackLetters()
    ensures LacksLetter("CDMP", 'a') && LacksLetter("Certification Overview", 'd')
  {
  }

  lemma Title2LacksData()
    ensures !Includes(Lower("CDMP Certification Overview"), "data")
  {
    Title2Halves();
    Title2HalvesLackLetters();
    TextLacksAcross("CDMP", "Certification Overview", "data", 'a', 'd');
  }

  lemma Dmbok2TitleLacksData()
    ensures !Includes(Lower(Dmbok2.metadata.title), "data")
  {
    Dmbok2TitleIs();
    Title2LacksData();
  }

  lemma Title2LacksGovernance()
    ensures !Includes(Lower("CDMP Certification Overview"), "governance")
  {
    TextLacksLetter("CDMP Certification Overview", "governance", 'g');
  }

  lemma Dmbok2TitleLacksGovernance()
    ensures !Includes(Lower(Dmbok2.metadata.title), "governance")
  {
    Dmbok2TitleIs();
    Title2LacksGovernance();
  }

  /* dmbok-3: content and title against each keyword. */

  lemma Dmbok3ContentHasData()
    ensures Includes(Lower(Dmbok3.Content()), "data")
  {
    ContentHas(Dmbok3, "data", 0, "");
  }

  lemma Dmbok3ContentHasGovernance()
    ensures Includes(Lower(Dmbok3.Content()), "governance")
  {
    ContentHas(Dmbok3, "governance", 1, "");
  }

  lemma Dmbok3TitleIs()
    ensures Dmbok3.metadata.title == "Data Governance Fundamentals"
  {
  }

  lemma Title3HasData()
    ensures Includes(Lower("Data Governance Fundamentals"), "data")
  {
    assert "Data Governance Fundamentals" == [] + "Data" + " Governance Fundamentals";
    TextHas([], "Data", " Governance Fundamentals", "data");
  }

  lemma Dmbok3TitleHasData()
    ensures Includes(Lower(Dmbok3.metadata.title), "data")
  {
    Dmbok3TitleIs();
    Title3HasData();
  }

  lemma Title3HasGovernance()
    ensures Includes(Lower("Data Governance Fundamentals"), "governance")
  {
    assert "Data Governance Fundamentals" == "Data " + "Governance" + " Fundamentals";
    TextHas("Data ", "Governance", " Fundamentals", "governance");
  }

  lemma Dmbok3TitleHasGovernance()
    ensures Includes(Lower(Dmbok3.metadata.title), "governance")
  {
    Dmbok3TitleIs();
    Title3HasGovernance();
  }

  /* dmbok-4: content and title against each keyword. */

  lemma Dmbok4ContentHasData()
    ensures Includes(Lower(Dmbok4.Content()), "data")
  {
    ContentHas(Dmbok4, "data", 0, "");
  }

  /** The words of dmbok-4's content long enough to hold "governance". */
  lemma Dmbok4LongWords()
    ensures forall j :: 0 <= j < |Dmbok4.words| ==> |Dmbok4.words[j]| < 10 || j in {11, 17, 20, 21, 22, 25}
  {
  }

  lemma Dmbok4Word11LacksGovernance()
    ensures !Occurs(Lower(Dmbok4.words[11]), "governance")
  {
    WordLacksLetter(Dmbok4.words[11], "governance", 'g');
  }

  lemma Dmbok4Word17LacksGovernance()
    ensures !Occurs(Lower(Dmbok4.words[17]), "governance")
  {
    WordLacksLetter(Dmbok4.words[17], "governance", 'g');
  }

  lemma Dmbok4Word20LacksGovernance()
    ensures !Occurs(Lower(Dmbok4.words[20]), "governance")
  {
    WordLacksLetter(Dmbok4.words[20], "governance", 'g');
  }

  lemma Dmbok4Word21LacksGovernance()
    ensures !Occurs(Lower(Dmbok4.words[21]), "governance")
  {
    WordLacksLetter(Dmbok4.words[21], "governance", 'g');
  }

  lemma Dmbok4Word22LacksGovernance()
    ensures !Occurs(Lower(Dmbok4.words[22]), "governance")
  {
    WordLacksLetter(Dmbok4.words[22], "governance", 'g');
  }

  lemma Dmbok4Word25LacksGovernance()
    ensures !Occurs(Lower(Dmbok4.words[25]), "governance")
  {
    WordLacksLetter(Dmbok4.words[25], "governance", 'g');
  }

  /** Each long word of dmbok-4's content lacks a letter of "governance". */
  lemma Dmbok4ContentLacksGovernance()
    ensures !Includes(Lower(Dmbok4.Content()), "governance")
  {
    Dmbok4LongWords();
    Dmbok4Word11LacksGovernance();
    Dmbok4Word17LacksGovernance();
    Dmbok4Word20LacksGovernance();
    Dmbok4Word21LacksGovernance();
    Dmbok4Word22LacksGovernance();
    Dmbok4Word25LacksGovernance();
    ContentLacks(Dmbok4, "governance", {11, 17, 20, 21, 22, 25});
  }

  lemma Dmbok4TitleIs()
    ensures Dmbok4.metadata.title == "Data Quality Management"
  {
  }

  lemma Title4HasData()
    ensures Includes(Lower("Data Quality Management"), "data")
  {
    assert "Data Quality Management" == [] + "Data" + " Quality Management";
    TextHas([], "Data", " Quality Management", "data");
  }

  lemma Dmbok4TitleHasData()
    ensures Includes(Lower(Dmbok4.metadata.title), "data")
  {
    Dmbok4TitleIs();
    Title4HasData();
  }

  lemma Title4LacksGovernance()
    ensures !Includes(Lower("Data Quality Management"), "governance")
  {
    TextLacksLetter("Data Quality Management", "governance", 'o');
  }

  lemma Dmbok4TitleLacksGovernance()
    ensures !Includes(Lower(Dmbok4.metadata.title), "governance")
  {
    Dmbok4TitleIs();
    Title4LacksGovernance();
  }

  /* dmbok-5: content and title against each keyword. */

  lemma Dmbok5ContentHasData()
    ensures Includes(Lower(Dmbok5.Content()), "data")
  {
    ContentHas(Dmbok5, "data", 1, "");
  }

  /** The words of dmbok-5's content long enough to hold "governance". */
  lemma Dmbok5LongWords()
    ensures forall j :: 0 <= j < |Dmbok5.words| ==> |Dmbok5.words[j]| < 10 || j in {2, 13, 15}
  {
  }

  lemma Dmbok5Word2LacksGovernance()
    ensures !Occurs(Lower(Dmbok5.words[2]), "governance")
  {
    WordLacksLetter(Dmbok5.words[2], "governance", 'o');
  }

  lemma Dmbok5Word13LacksGovernance()
    ensures !Occurs(Lower(Dmbok5.words[13]), "governance")
  {
    WordLacksLetter(Dmbok5.words[13], "governance", 'g');
  }

  lemma Dmbok5Word15LacksGovernance()
    ensures !Occurs(Lower(Dmbok5.words[15]), "governance")
  {
    WordLacksLetter(Dmbok5.words[15], "governance", 'g');
  }

  /** Each long word of dmbok-5's content lacks a letter of "governance". */
  lemma Dmbok5ContentLacksGovernance()
    ensures !Includes(Lower(Dmbok5.Content()), "governance")
  {
    Dmbok5LongWords();
    Dmbok5Word2LacksGovernance();
    Dmbok5Word13LacksGovernance();
    Dmbok5Word15LacksGovernance();
    ContentLacks(Dmbok5, "governance", {2, 13, 15});
  }

  lemma Dmbok5TitleIs()
    ensures Dmbok5.metadata.title == "Master Data Management"
  {
  }

  lemma Title5HasData()
    ensures Includes(Lower("Master Data Management"), "data")
  {
    assert "Master Data Management" == "Master " + "Data" + " Management";
    TextHas("Master ", "Data", " Management", "data");
  }

  lemma Dmbok5TitleHasData()
    ensures Includes(Lower(Dmbok5.metadata.title), "data")
  {
    Dmbok5TitleIs();
    Title5HasData();
  }

  lemma Title5LacksGovernance()
    ensures !Includes(Lower("Master Data Management"), "governance")
  {
    TextLacksLetter("Master Data Management", "governance", 'o');
  }

  lemma Dmbok5TitleLacksGovernance()
    ensures !Includes(Lower(Dmbok5.metadata.title), "governance")
  {
    Dmbok5TitleIs();
    Title5LacksGovernance();
  }

  /** "Introduction to Data Management": "data" in content and title. */
  lemma Dmbok1Score()
    ensures BaseScore(Dmbok1, Terms) == 5
  {
    TwoKeywordScore(Dmbok1);
    Dmbok1ContentHasData();
    Dmbok1ContentLacksGovernance();
    Dmbok1TitleHasData();
    Dmbok1TitleLacksGovernance();
  }

  /** "CDMP Certification Overview": both keywords in the content only. */
  lemma Dmbok2Score()
    ensures BaseScore(Dmbok2, Terms) == 4
  {
    TwoKeywordScore(Dmbok2);
    Dmbok2ContentHasData();
    Dmbok2ContentHasGovernance();
    Dmbok2TitleLacksData();
    Dmbok2TitleLacksGovernance();
  }

  /** "Data Governance Fundamentals": both keywords in content and title. */
  lemma Dmbok3Score()
    ensures BaseScore(Dmbok3, Terms) == 10
  {
    TwoKeywordScore(Dmbok3);
    Dmbok3ContentHasData();
    Dmbok3ContentHasGovernance();
    Dmbok3TitleHasData();
    Dmbok3TitleHasGovernance();
  }

  /** "Data Quality Management": "data" in content and title. */
  lemma Dmbok4Score()
    ensures BaseScore(Dmbok4, Terms) == 5
  {
    TwoKeywordScore(Dmbok4);
    Dmbok4ContentHasData();
    Dmbok4ContentLacksGovernance();
    Dmbok4TitleHasData();
    Dmbok4TitleLacksGovernance();
  }

  /** "Master Data Management": "data" in content and title. */
  lemma Dmbok5Score()
    ensures BaseScore(Dmbok5, Terms) == 5
  {
    TwoKeywordScore(Dmbok5);
    Dmbok5ContentHasData();
    Dmbok5ContentLacksGovernance();
    Dmbok5TitleHasData();
    Dmbok5TitleLacksGovernance();
  }

  /** The base scores of the five DMBOK documents for the query. */
  lemma DmbokScores()
    ensures BaseScore(Dmbok1, Terms) == 5 && BaseScore(Dmbok2, Terms) == 4
    ensures BaseScore(Dmbok3, Terms) == 10
    ensures BaseScore(Dmbok4, Terms) == 5 && BaseScore(Dmbok5, Terms) == 5
  {
    Dmbok1Score();
    Dmbok2Score();
    Dmbok3Score();
    Dmbok4Score();
    Dmbok5Score();
  }

  /** In any five distinct documents scoring 5, 4, 10, 5 and 5, the top
      three open with the one scoring 10 and leave out the one scoring 4. */
  lemma TopThreeOfFive(docs: seq<Document>, keywords: seq<string>, noise: seq<real>)
    requires |docs| == 5 && NoDuplicates(docs)
    requires |noise| == 5 && ValidNoise(noise)
    requires BaseScore(docs[0], keywords) == 5 && BaseScore(docs[1], keywords) == 4
    requires BaseScore(docs[2], keywords) == 10
    requires BaseScore(docs[3], keywords) == 5 && BaseScore(docs[4], keywords) == 5
    ensures var r := TopK(docs, keywords, 3, noise);
            && |r| == 3
            && r[0] == docs[2]
            && docs[1] !in r
            && r[1] in {docs[0], docs[3], docs[4]} && r[2] in {docs[0], docs[3], docs[4]} && r[1] != r[2]
  {
    TopScorerComesFirst(docs, keywords, 3, noise, docs[2]);
    OutscoredIsLeftOut(docs, keywords, 3, noise, docs[1], [docs[0], docs[2], docs[3]]);
    var r := TopK(docs, keywords, 3, noise);
    assert r[1] in docs && r[2] in docs;
  }

  /** The search runs the top-K selection over the DMBOK documents. */
  lemma QuerySearch(noise: seq<real>)
    requires |noise| == 5 && ValidNoise(noise)
    ensures Search(Query, "dmbok", 3, noise) == TopK(DmbokDocuments, Terms, 3, noise)
  {
    QueryKeywords();
  }

  /** The top three of the DMBOK collection for the query's keywords. */
  lemma DmbokTop(noise: seq<real>)
    requires |noise| == 5 && ValidNoise(noise)
    ensures var r := TopK(DmbokDocuments, Terms, 3, noise);
            && |r| == 3
            && r[0] == Dmbok3
            && Dmbok2 !in r
            && r[1] in {Dmbok1, Dmbok4, Dmbok5} && r[2] in {Dmbok1, Dmbok4, Dmbok5} && r[1] != r[2]
  {
    var docs := DmbokDocuments;
    DmbokScoresAt(docs);
    CollectionsAreDistinct("dmbok");
    TopThreeOfFive(docs, Terms, noise);
  }

  /** The DMBOK scores, by position in the collection. */
  lemma DmbokScoresAt(docs: seq<Document>)
    requires docs == DmbokDocuments
    ensures BaseScore(docs[0], Terms) == 5 && BaseScore(docs[1], Terms) == 4
    ensures BaseScore(docs[2], Terms) == 10
    ensures BaseScore(docs[3], Terms) == 5 && BaseScore(docs[4], Terms) == 5
  {
    assert docs[0] == Dmbok1 && docs[1] == Dmbok2 && docs[2] == Dmbok3;
    assert docs[3] == Dmbok4 && docs[4] == Dmbok5;
    DmbokScores();
  }

  /** Whatever the perturbations, dmbok-3 comes first, dmbok-2 is never
      returned, and the other two places go to two of dmbok-1, dmbok-4 and
      dmbok-5. */
  lemma DataGovernanceSearch(noise: seq<real>)
    requires |noise| == 5 && ValidNoise(noise)
    ensures var r := Search(Query, "dmbok", 3, noise);
            && |r| == 3
            && r[0] == Dmbok3
            && Dmbok2 !in r
            && r[1] in {Dmbok1, Dmbok4, Dmbok5} && r[2] in {Dmbok1, Dmbok4, Dmbok5} && r[1] != r[2]
  {
    QuerySearch(noise);
    DmbokTop(noise);
  }
}
