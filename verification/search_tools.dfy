/** The two chat routes' search tools: each `execute` generator yields a
    "searching" frame carrying the query, then a "complete" frame holding
    the top three documents of its collection flattened into sources. */
module SearchTools {
  import opened Wrappers
  import opened VectorDb
  import opened Collections

  /** A flattened search result, as the tools emit it and the chat client
      shows it; `url` is absent from every DMBOK result. */
  datatype Source = Source(id: string, content: string, source: string, title: string,
                           page: Option<int>, url: Option<string>)

  /** One value yielded by a tool's `execute` generator. */
  datatype Frame = Searching(query: string) | Complete(results: seq<Source>)

  /** How many documents both routes ask the search for. */
  const ResultsPerSearch: int := 3

  /** The ids of a list of sources, in order. */
  function SourceIds(sources: seq<Source>): (ids: seq<string>)
    ensures |ids| == |sources|
  {
    seq(|sources|, i requires 0 <= i < |sources| => sources[i].id)
  }

  /** The ids of a list of documents, in order. */
  function DocumentIds(docs: seq<Document>): (ids: seq<string>)
    ensures |ids| == |docs|
  {
    seq(|docs|, i requires 0 <= i < |docs| => docs[i].id)
  }

  /** Documents with distinct ids have a repeat-free id list. */
  lemma DistinctIdsDiffer(docs: seq<Document>)
    requires DistinctIds(docs)
    ensures NoDuplicates(DocumentIds(docs))
  {
  }

  /* ----------------------------------------------------------- DMBOK route */

  /** The DMBOK route's result mapping: every field but the url. */
  function KnowledgeBaseSource(doc: Document): (s: Source)
    ensures s.id == doc.id && s.content == doc.Content()
    ensures s.source == doc.metadata.source && s.title == doc.metadata.title && s.page == doc.metadata.page
    ensures s.url == None
  {
    Source(doc.id, doc.Content(), doc.metadata.source, doc.metadata.title, doc.metadata.page, None)
  }

  /** `results.map(...)` in the DMBOK route. */
  function KnowledgeBaseResults(docs: seq<Document>): (results: seq<Source>)
    ensures |results| == |docs| && SourceIds(results) == DocumentIds(docs)
    ensures forall i :: 0 <= i < |docs| ==> results[i] == KnowledgeBaseSource(docs[i])
    ensures forall s :: s in results ==> exists d :: d in docs && s == KnowledgeBaseSource(d)
  {
    var results := seq(|docs|, i requires 0 <= i < |docs| => KnowledgeBaseSource(docs[i]));
    assert forall s :: s in results ==> exists d :: d in docs && s == KnowledgeBaseSource(d) by {
      forall s | s in results
        ensures exists d :: d in docs && s == KnowledgeBaseSource(d)
      {
        var i :| 0 <= i < |results| && results[i] == s;
        assert docs[i] in docs;
      }
    }
    results
  }

  /** `searchKnowledgeBase.execute`: `noise` stands for the search's random draws. */
  function SearchKnowledgeBase(query: string, noise: seq<real>): (frames: seq<Frame>)
    requires |noise| == 5 && ValidNoise(noise)
    ensures |frames| == 2 && frames[0] == Searching(query) && frames[1].Complete?
    ensures |frames[1].results| == ResultsPerSearch
    ensures forall s :: s in frames[1].results ==> s.url == None
    ensures forall s :: s in frames[1].results ==> exists d :: d in DmbokDocuments && s == KnowledgeBaseSource(d)
    ensures NoDuplicates(SourceIds(frames[1].results))
  {
    var docs := Search(query, "dmbok", ResultsPerSearch, noise);
    DistinctIdsDiffer(docs);
    [Searching(query), Complete(KnowledgeBaseResults(docs))]
  }

  /** The complete frame lists the search hits in rank order, one source
      per document, each carrying that document's fields. */
  lemma KnowledgeBaseFollowsSearch(query: string, noise: seq<real>)
    requires |noise| == 5 && ValidNoise(noise)
    ensures var docs := Search(query, "dmbok", ResultsPerSearch, noise);
            var results := SearchKnowledgeBase(query, noise)[1].results;
            && |results| == |docs|
            && SourceIds(results) == DocumentIds(docs)
            && forall i :: 0 <= i < |docs| ==> results[i] == KnowledgeBaseSource(docs[i])
  {
  }

  /* -------------------------------------------------------- Zimbabwe route */

  /** The Zimbabwe route's result mapping: every field including the url. */
  function HistoricalRecordSource(doc: Document): (s: Source)
    ensures s.id == doc.id && s.content == doc.Content()
    ensures Metadata(s.source, s.title, s.page, s.url) == doc.metadata
  {
    Source(doc.id, doc.Content(), doc.metadata.source, doc.metadata.title, doc.metadata.page, doc.metadata.url)
  }

  /** `results.map(...)` in the Zimbabwe route. */
  function HistoricalRecordResults(docs: seq<Document>): (results: seq<Source>)
    ensures |results| == |docs| && SourceIds(results) == DocumentIds(docs)
    ensures forall i :: 0 <= i < |docs| ==> results[i] == HistoricalRecordSource(docs[i])
    ensures forall s :: s in results ==> exists d :: d in docs && s == HistoricalRecordSource(d)
  {
    var results := seq(|docs|, i requires 0 <= i < |docs| => HistoricalRecordSource(docs[i]));
    assert forall s :: s in results ==> exists d :: d in docs && s == HistoricalRecordSource(d) by {
      forall s | s in results
        ensures exists d :: d in docs && s == HistoricalRecordSource(d)
      {
        var i :| 0 <= i < |results| && results[i] == s;
        assert docs[i] in docs;
      }
    }
    results
  }

  /** `searchHistoricalRecords.execute`: `noise` stands for the search's random draws. */
  function SearchHistoricalRecords(query: string, noise: seq<real>): (frames: seq<Frame>)
    requires |noise| == 5 && ValidNoise(noise)
    ensures |frames| == 2 && frames[0] == Searching(query) && frames[1].Complete?
    ensures |frames[1].results| == ResultsPerSearch
    ensures forall s :: s in frames[1].results ==> exists d :: d in ZimbabweDocuments && s == HistoricalRecordSource(d)
    ensures NoDuplicates(SourceIds(frames[1].results))
  {
    var docs := Search(query, "zimbabwe", ResultsPerSearch, noise);
    DistinctIdsDiffer(docs);
    [Searching(query), Complete(HistoricalRecordResults(docs))]
  }

  /** The complete frame lists the search hits in rank order, one source
      per document, each carrying that document's fields. */
  lemma HistoricalRecordsFollowSearch(query: string, noise: seq<real>)
    requires |noise| == 5 && ValidNoise(noise)
    ensures var docs := Search(query, "zimbabwe", ResultsPerSearch, noise);
            var results := SearchHistoricalRecords(query, noise)[1].results;
            && |results| == |docs|
            && SourceIds(results) == DocumentIds(docs)
            && forall i :: 0 <= i < |docs| ==> results[i] == HistoricalRecordSource(docs[i])
  {
  }

  /* ------------------------------------------------------ the two mappings */

  /** The two mappings differ in the url alone: they agree exactly on the
      documents without one. */
  lemma MappingsDifferInUrlOnly(doc: Document)
    ensures KnowledgeBaseSource(doc) == HistoricalRecordSource(doc).(url := None)
    ensures KnowledgeBaseSource(doc) == HistoricalRecordSource(doc) <==> doc.metadata.url == None
  {
  }
}
