/** The two fixed collections of the mock vector database, and the search
    entry point that picks one of them by name. */
module Collections {
  import opened Wrappers
  import opened Strings
  import opened VectorDb

  /* The DMBOK / CDMP study material, one constant per document. */

  const Dmbok1: Document :=
    Document(
      "dmbok-1",
      [
        "Data", "Management", "is", "the", "development,", "execution,", "and", "supervision",
        "of", "plans,", "policies,", "programs,", "and", "practices", "that", "deliver,",
        "control,", "protect,", "and", "enhance", "the", "value", "of", "data", "and",
        "information", "assets", "throughout", "their", "lifecycles."
      ],
      Metadata(
        "DMBOK Guide",
        "Introduction to Data Management",
        Some(12),
        None))

  const Dmbok2: Document :=
    Document(
      "dmbok-2",
      [
        "The", "CDMP", "(Certified", "Data", "Management", "Professional)", "certification",
        "validates", "knowledge", "across", "11", "knowledge", "areas:", "Data", "Governance,",
        "Data", "Architecture,", "Data", "Modeling", "&", "Design,", "Data", "Storage", "&",
        "Operations,", "Data", "Security,", "Data", "Integration", "&", "Interoperability,",
        "Documents", "&", "Content,", "Reference", "&", "Master", "Data,", "Data", "Warehousing",
        "&", "Business", "Intelligence,", "Metadata,", "and", "Data", "Quality."
      ],
      Metadata(
        "DMBOK Guide",
        "CDMP Certification Overview",
        Some(5),
        None))

  const Dmbok3: Document :=
    Document(
      "dmbok-3",
      [
        "Data", "Governance", "is", "the", "exercise", "of", "authority", "and", "control",
        "over", "the", "management", "of", "data", "assets.", "It", "includes", "planning,",
        "oversight,", "and", "control", "over", "data", "management", "and", "the", "use", "of",
        "data", "and", "data-related", "resources."
      ],
      Metadata(
        "DMBOK Guide",
        "Data Governance Fundamentals",
        Some(45),
        None))

  const Dmbok4: Document :=
    Document(
      "dmbok-4",
      [
        "Data", "Quality", "refers", "to", "the", "degree", "to", "which", "data", "meets",
        "the", "requirements", "of", "its", "intended", "use.", "Key", "dimensions", "include",
        "accuracy,", "completeness,", "consistency,", "timeliness,", "validity,", "and",
        "uniqueness."
      ],
      Metadata(
        "DMBOK Guide",
        "Data Quality Management",
        Some(234),
        None))

  const Dmbok5: Document :=
    Document(
      "dmbok-5",
      [
        "Master", "Data", "Management", "(MDM)", "is", "the", "control", "over", "master",
        "data", "values", "to", "enable", "consistent,", "shared,", "contextual", "use",
        "across", "systems,", "of", "the", "most", "accurate,", "timely,", "and", "relevant",
        "version", "of", "truth", "about", "essential", "business", "entities."
      ],
      Metadata(
        "DMBOK Guide",
        "Master Data Management",
        Some(189),
        None))

  /** The DMBOK / CDMP study-material collection. */
  const DmbokDocuments: seq<Document> := [Dmbok1, Dmbok2, Dmbok3, Dmbok4, Dmbok5]

  /* The colonial-Zimbabwe history records, one constant per document. */

  const Zim1: Document :=
    Document(
      "zim-1",
      [
        "During", "the", "colonial", "period", "in", "Zimbabwe", "(formerly", "Rhodesia),",
        "the", "African", "middle", "class", "began", "to", "emerge", "in", "the", "1920s",
        "and", "1930s.", "This", "class", "consisted", "primarily", "of", "teachers,", "clerks,",
        "interpreters,", "and", "small-scale", "traders", "who", "had", "received", "mission",
        "education."
      ],
      Metadata(
        "Colonial Zimbabwe: A Social History",
        "The Emergence of the African Middle Class",
        Some(78),
        Some("https://example.com/colonial-zimbabwe")))

  const Zim2: Document :=
    Document(
      "zim-2",
      [
        "The", "Land", "Apportionment", "Act", "of", "1930", "significantly", "impacted", "the",
        "African", "middle", "class", "by", "restricting", "land", "ownership", "and",
        "creating", "separate", "areas", "for", "Europeans", "and", "Africans.", "Despite",
        "these", "restrictions,", "some", "educated", "Africans", "managed", "to", "acquire",
        "property", "in", "designated", "urban", "areas."
      ],
      Metadata(
        "Land and Politics in Colonial Zimbabwe",
        "Impact of Land Apportionment",
        Some(112),
        Some("https://example.com/land-politics")))

  const Zim3: Document :=
    Document(
      "zim-3",
      [
        "African", "entrepreneurs", "in", "colonial", "Zimbabwe", "faced", "numerous",
        "challenges", "including", "limited", "access", "to", "capital,", "discriminatory",
        "licensing", "laws,", "and", "competition", "from", "established", "European",
        "businesses.", "However,", "some", "succeeded", "in", "establishing", "trading",
        "stores,", "transport", "services,", "and", "small", "manufacturing", "enterprises."
      ],
      Metadata(
        "African Business in Colonial Zimbabwe",
        "Entrepreneurship Under Colonialism",
        Some(45),
        Some("https://example.com/african-business")))

  const Zim4: Document :=
    Document(
      "zim-4",
      [
        "Education", "played", "a", "crucial", "role", "in", "the", "formation", "of", "the",
        "African", "middle", "class.", "Mission", "schools,", "particularly", "those", "run",
        "by", "Methodist,", "Catholic,", "and", "Anglican", "churches,", "provided", "primary",
        "and", "secondary", "education", "that", "enabled", "Africans", "to", "access",
        "white-collar", "employment."
      ],
      Metadata(
        "Education and Social Mobility in Zimbabwe",
        "Mission Education and Class Formation",
        Some(67),
        Some("https://example.com/education-mobility")))

  const Zim5: Document :=
    Document(
      "zim-5",
      [
        "By", "the", "1960s,", "the", "African", "middle", "class", "in", "Zimbabwe", "had",
        "grown", "significantly", "and", "became", "increasingly", "politically", "active.",
        "Organizations", "like", "the", "African", "National", "Congress", "and", "later",
        "ZANU", "and", "ZAPU", "drew", "much", "of", "their", "leadership", "from", "this",
        "educated", "middle", "class."
      ],
      Metadata(
        "Nationalism and Independence in Zimbabwe",
        "The Political Awakening",
        Some(134),
        Some("https://example.com/nationalism")))

  /** The colonial-Zimbabwe history collection. */
  const ZimbabweDocuments: seq<Document> := [Zim1, Zim2, Zim3, Zim4, Zim5]

  /** `getAllDocuments`: "dmbok" names the DMBOK collection; every other
      value falls through to the Zimbabwe collection. */
  function GetAllDocuments(collection: string): (docs: seq<Document>)
    ensures |docs| == 5
    ensures collection == "dmbok" ==> docs == DmbokDocuments
    ensures collection != "dmbok" ==> docs == ZimbabweDocuments
  {
    if collection == "dmbok" then DmbokDocuments else ZimbabweDocuments
  }

  /** `searchVectorDB`: the keyword-ranked top `topK` documents of the
      collection; `noise` stands for the five `Math.random()` draws. */
  function Search(query: string, collection: string, topK: int, noise: seq<real>): (r: seq<Document>)
    requires |noise| == 5 && ValidNoise(noise)
    ensures |r| == SliceEnd(5, topK)
    ensures forall d :: d in r ==> d in GetAllDocuments(collection)
    ensures NoDuplicates(r) && DistinctIds(r)
  {
    CollectionsAreDistinct(collection);
    var r := TopK(GetAllDocuments(collection), Keywords(query), topK, noise);
    DistinctIdsOfSelection(GetAllDocuments(collection), r);
    r
  }

  /** Within each collection the ids, and so the documents, differ. */
  lemma CollectionsAreDistinct(collection: string)
    ensures DistinctIds(GetAllDocuments(collection))
    ensures NoDuplicates(GetAllDocuments(collection))
  {
    if collection == "dmbok" {
      DmbokIsDistinct();
    } else {
      ZimbabweIsDistinct();
    }
  }

  lemma DmbokIsDistinct()
    ensures DistinctIds(DmbokDocuments)
  {
    var ids := seq(5, i requires 0 <= i < 5 => DmbokDocuments[i].id[6]);
    assert ids == "12345";
  }

  lemma ZimbabweIsDistinct()
    ensures DistinctIds(ZimbabweDocuments)
  {
    var ids := seq(5, i requires 0 <= i < 5 => ZimbabweDocuments[i].id[4]);
    assert ids == "12345";
  }
}
