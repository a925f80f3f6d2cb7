# Retrieval path of the RAG chat agent, in Dafny

This project models the retrieval path of a two-agent RAG chat application. One agent covers DMBOK / CDMP study material; the other covers colonial-Zimbabwe history. The path has three parts:

- **The mock vector database.** `searchVectorDB` picks one of two fixed five-document collections. It then:
  - lower-cases the query and splits it on single spaces;
  - keeps the pieces whose `length` exceeds three as keywords;
  - scores each document 2 points per keyword found in its content and 3 per keyword found in its title;
  - adds a random perturbation `Math.random() * 0.5`;
  - sorts by descending score and keeps the first `topK`.

  `getAllDocuments` makes the same collection choice.
- **The two search tools.** Each chat route's tool is an `execute` generator. It yields a "searching" frame with the query, then a "complete" frame with the top three documents flattened into sources. The DMBOK route drops the url; the Zimbabwe route keeps it.
- **The chat client.** Its source-extraction effect folds the message list into a map from assistant-message id to the sources of that message's finished search-tool calls. Its submit guard sends the input only when the trimmed input is non-empty and the status is not `"in_progress"`.

Modules:

- `Wrappers`: `Option`, standing for JavaScript's optional properties.
- `Strings`: the JavaScript string operations the code relies on:
  - `toLowerCase` on ASCII;
  - `length`, counted in UTF-16 code units;
  - `split` on one character, keeping empty pieces;
  - `includes`, with a reference definition by match position;
  - `trim`.
- `VectorDb`: documents, keyword extraction, scoring, the stable descending sort, `slice(0, topK)` and the top-K selection over any document list.
- `Collections`: the ten fixture documents, `getAllDocuments` and `searchVectorDB`.
- `SearchExample`: the query "data governance" on the DMBOK collection with the top three kept, for every choice of perturbations.
- `SearchTools`: the two routes' `execute` generators and their result mappings.
- `ChatClient`: source extraction and the submit guard.

`Math.random()` becomes an explicit argument `noise` with one value per document, each in [0, 0.5]. The product `Math.random() * 0.5` is below one half, but adding it to an integer score in floating point can round up to exactly one half above it, so the model allows the closed interval. A document's content is kept as its list of words, so the content string is the words joined by single spaces. This is exactly the fixture text, since no fixture has a doubled space.

## Model

| member | source | states |
|---|---|---|
| Strings.LowerIsLowerCase | lib/vector-db.ts:159 | Lower-casing leaves no upper-case letter, is idempotent, and changes a string exactly when it holds an upper-case letter |
| Strings.Utf16Length | lib/vector-db.ts:160 | A string's JavaScript length lies between its character count and twice that |
| Strings.Utf16LengthOfPlainText | lib/vector-db.ts:160 | The JavaScript length equals the character count exactly when no character lies outside the Basic Multilingual Plane |
| Strings.LowerKeepsUtf16Length | lib/vector-db.ts:159-160 | Lower-casing keeps the JavaScript length |
| Strings.IncludesIffOccurs | lib/vector-db.ts:169-170 | The executable substring test holds exactly when the needle occurs at some position of the text |
| Strings.JoinSplit | lib/vector-db.ts:160 | Joining the pieces of `split(" ")` back with the separator gives the original string, so splitting loses nothing |
| Strings.SplitJoin | lib/vector-db.ts:160 | Splitting a join of separator-free pieces gives back exactly those pieces, empty ones included |
| Strings.Trim | components/chat-interface.tsx:84 | The trimmed input is a slice with only whitespace outside it and none at its ends; it is empty exactly when the input is all whitespace |
| VectorDb.Keywords | lib/vector-db.ts:159-160 | A string is a keyword exactly when it is a piece of the lower-cased query split on " " whose JavaScript length exceeds three |
| VectorDb.KeywordsAreLowerWords | lib/vector-db.ts:159-160 | Every keyword has a JavaScript length above three, holds no space and has no upper-case letter |
| VectorDb.ShortWordsAreIgnored | lib/vector-db.ts:160 | Appending a word of JavaScript length at most three, including the empty piece a doubled space makes, leaves the keyword list unchanged |
| VectorDb.LongPiecesMembers | lib/vector-db.ts:160 | The length filter keeps exactly the pieces of more than three UTF-16 code units and never lengthens the list |
| VectorDb.ScoreKeywords | lib/vector-db.ts:167-171 | The accumulated points are at most 5 per keyword |
| VectorDb.BaseScoreCounts | lib/vector-db.ts:162-171 | The base score is 2 × the number of keywords occurring in the lower-cased content plus 3 × the number occurring in the lower-cased title, repeats counted |
| VectorDb.TitleMatchesOutweighBody | lib/vector-db.ts:169-170 | Of two documents with the same content, one whose title holds every keyword scores 3 points per keyword above one whose title holds none |
| VectorDb.SortByScore | lib/vector-db.ts:180-181 | The sort returns a permutation of the scored documents |
| VectorDb.SortByScoreSorted | lib/vector-db.ts:180-181 | The sorted list is in non-increasing order of total score |
| VectorDb.PerturbationKeepsBaseOrder | lib/vector-db.ts:169-181 | Totals at most one half above integer base scores, sorted by total, are also sorted by base score |
| VectorDb.RankFacts | lib/vector-db.ts:162-181 | The ranking holds each document once with its own base score and a total at most one half above it, ordered by total and hence by base score |
| VectorDb.SliceEnd | lib/vector-db.ts:182 | The end index never exceeds the length, and an index lies below it exactly when `slice(0, end)` keeps that item: it is below `end`, or, for a negative `end`, at least `-end` items follow it |
| VectorDb.TopK | lib/vector-db.ts:180-183 | The result has `SliceEnd(len, topK)` documents, all drawn unmodified from the input, without repeats when the input has none, in ranking order |
| VectorDb.TopKOrderedByTotal | lib/vector-db.ts:174-183 | Each result is the ranking entry at its position, and the totals of the results never increase |
| VectorDb.TopKOrderedByBaseScore | lib/vector-db.ts:169-183 | The results are in non-increasing order of base score, whatever the perturbations |
| VectorDb.TopKKeepsHighestBaseScores | lib/vector-db.ts:169-183 | Every document left out has a base score no higher than every document returned |
| VectorDb.TopScorerComesFirst | lib/vector-db.ts:169-183 | A document scoring strictly above all others is returned first, whatever the perturbations |
| VectorDb.HigherScoresComeEarlier | lib/vector-db.ts:169-183 | Every document scoring strictly above the i-th result is among the results before it |
| VectorDb.OutscoredIsLeftOut | lib/vector-db.ts:169-183 | A document strictly outscored by at least as many documents as are returned is never returned |
| VectorDb.DistinctIdsOfSelection | lib/vector-db.ts:180-183 | A repeat-free selection from documents with distinct ids has distinct ids |
| Collections.GetAllDocuments | lib/vector-db.ts:187-189 | Both collections hold five documents; "dmbok" selects the DMBOK fixture and every other name the Zimbabwe fixture |
| Collections.Search | lib/vector-db.ts:151-184 | The result has `SliceEnd(5, topK)` documents, so `min(topK, 5)` for `topK ≥ 0`, all from the selected collection, with no repeated document or id |
| Collections.CollectionsAreDistinct | lib/vector-db.ts:17-127 | Within each fixture collection no two documents share an id |
| SearchExample.QueryKeywords | lib/vector-db.ts:159-160 | The query "data governance" yields exactly the keywords "data" and "governance" |
| SearchExample.DmbokScores | lib/vector-db.ts:17-68 | For those keywords the DMBOK documents score 5, 4, 10, 5 and 5 in fixture order |
| SearchExample.TopThreeOfFive | lib/vector-db.ts:169-183 | Among five distinct documents scoring 5, 4, 10, 5, 5, the top three start with the 10, omit the 4 and fill the other places with two different 5s |
| SearchExample.DataGovernanceSearch | lib/vector-db.ts:151-184 | For every choice of perturbations, "data governance" on "dmbok" with topK 3 returns dmbok-3 first, never dmbok-2, and two different ones of dmbok-1, dmbok-4, dmbok-5 |
| SearchTools.KnowledgeBaseSource | app/api/chat/dmbok/route.ts:30-36 | The DMBOK source copies id, content, source, title and page and has no url |
| SearchTools.SearchKnowledgeBase | app/api/chat/dmbok/route.ts:22-38 | Exactly two frames: "searching" with the query unchanged, then "complete" with three url-free sources, each the flattening of a DMBOK document, with distinct ids |
| SearchTools.KnowledgeBaseFollowsSearch | app/api/chat/dmbok/route.ts:26-37 | The complete frame maps `searchVectorDB(query, "dmbok", 3)` in order and length: the i-th source is the i-th document's flattening |
| SearchTools.HistoricalRecordSource | app/api/chat/zimbabwe/route.ts:35-42 | The Zimbabwe source copies id and content, and its source, title, page and url give back the document's metadata |
| SearchTools.SearchHistoricalRecords | app/api/chat/zimbabwe/route.ts:27-44 | Exactly two frames: "searching" with the query unchanged, then "complete" with three sources, each the flattening of a Zimbabwe document, with distinct ids |
| SearchTools.HistoricalRecordsFollowSearch | app/api/chat/zimbabwe/route.ts:31-43 | The complete frame maps `searchVectorDB(query, "zimbabwe", 3)` in order and length: the i-th source is the i-th document's flattening |
| SearchTools.MappingsDifferInUrlOnly | app/api/chat/zimbabwe/route.ts:35-42 | The two routes' mappings agree on every field but the url, and agree completely exactly when the document has no url |
| ChatClient.FrameOutput | app/api/chat/dmbok/route.ts:23-37 | A frame reaches the client with state "complete" and with results exactly when it is the complete frame |
| ChatClient.PartSources | components/chat-interface.tsx:63-70 | A part contributes sources only if it is a search-tool call whose output is available, with state "complete" and results present |
| ChatClient.PartSourcesOfFrames | components/chat-interface.tsx:63-70 | A search tool's complete frame contributes exactly its results; the searching frame, other tools and unfinished or failed calls contribute nothing |
| ChatClient.MessageSources | components/chat-interface.tsx:60-71 | Every source of a message comes from one of its contributing parts |
| ChatClient.MessageSourcesComplete | components/chat-interface.tsx:60-71 | Every source of every part is among the message's sources |
| ChatClient.MessageSourcesAppend | components/chat-interface.tsx:62-71 | A message's sources are its parts' sources concatenated in part order |
| ChatClient.ExtractSources | components/chat-interface.tsx:55-80 | No id maps to an empty list, and an id is a key exactly when some assistant message with that id has sources |
| ChatClient.ExtractSourcesTakesLast | components/chat-interface.tsx:58-77 | The entry for an id holds the sources of the last assistant message with sources that carries it |
| ChatClient.OnlyAssistantMessagesCount | components/chat-interface.tsx:59 | Removing every message of another role leaves the map unchanged |
| ChatClient.SourcesEffectIsIdempotent | components/chat-interface.tsx:56-79 | The rebuilt map ignores the previously shown map, so running the effect again on the same messages changes nothing |
| ChatClient.FinishedSearchShowsSources | components/chat-interface.tsx:58-75 | An assistant message with one finished search holding results gets exactly that search's results as its entry |
| ChatClient.KnowledgeBaseAnswerShowsSources | components/chat-interface.tsx:58-75 | End to end, an assistant message with the DMBOK tool's complete frame maps to that frame's three sources |
| ChatClient.HandleSubmit | components/chat-interface.tsx:82-88 | Sends exactly when the input is not all whitespace and the status is not "in_progress"; a send passes the input untrimmed and clears the box; otherwise nothing changes |
| ChatClient.SubmitSendsOnce | components/chat-interface.tsx:84-87 | After a send the box is empty, so a second submit sends nothing |

## Left out

- `cosineSimilarity` and `mockEmbedding` (lib/vector-db.ts:130-148): floating-point square roots and division that the search never calls. The optional `embedding` field, which no fixture sets, is left out with them.
- `Math.random()`: replaced by the `noise` argument, one value in [0, 0.5] per document. Ties in base score are broken by these values and the stable sort, and no lemma claims a tie order.
- Floating point: scores are exact reals. In the source they are doubles, where integer points add exactly and only the final perturbation can round, which `noise` covers by reaching 0.5. The comparator's `b.score - a.score` has the sign of the exact difference, so the sort order is the same.
- Collections.Search: takes `topK` as an explicit integer. The default of 3 when the argument is omitted, and `slice` truncating a fractional `topK`, are not modelled; both routes pass 3.
- VectorDb.SortByScore: it is stable, being an insertion sort that places each element before its equals. Its contract states permutation and order only, not stability.
- Strings.Lower: lower-cases ASCII letters only. The JavaScript `toLowerCase` also maps non-ASCII letters, but every fixture and example here is ASCII.
- Strings.Trim: uses a fixed whitespace set (tab, vertical tab, form feed, space, no-break space, BOM, the Unicode space separators and the line terminators). Lengths and indices count Dafny characters, not UTF-16 code units.
- VectorDb.Keywords: its contract says which strings are keywords, not their order or repeats. Repeats matter to the score, and `ShortWordsAreIgnored` and `QueryKeywords` state the exact list where they apply.
- A remote retrieval backend, configuration and upstream errors, and an invalid-collection error are not in the code: an unknown collection name silently selects the Zimbabwe collection.
- The async generators are modelled as the list of frames they yield; suspension between frames, and `await` on the search, are not modelled.
- The library calls are not modelled: `streamText`, `convertToModelMessages`, `validateUIMessages`, `toUIMessageStreamResponse`, `useChat`, `lastAssistantMessageIsCompleteWithToolCalls` and the zod input schemas. This includes the step limit and automatic continuation. The chat status is kept as an opaque string compared with `"in_progress"`.
- The OpenAI client, environment variables and `maxDuration` are configuration and I/O.
- The user interface is not modelled: rendering, colour classes, auto-scroll, `e.preventDefault()`, the page wrappers, agent prompts and type-only modules. `sendMessage` is modelled as the text it would be given.
