# IdeasMiner analytics, search and import — a Dafny model

IdeasMiner is a browser application that imports chat transcripts from
ChatGPT, Claude, Gemini and other tools into an IndexedDB store (through
Dexie), searches them and mines them for topics, sentiment, summaries and
"ideas". This project models the engine behind those features:

- **Analysis** (`client/src/lib/analysis.ts`):
  - keyword selection from the NLP library's topic and noun lists (module `Keywords`);
  - the lexicon sentiment scorer (`Sentiment`);
  - the three idea regular expressions and their `exec` loop (`Ideas`);
  - per-conversation topic counting and ranking (`Topics`);
  - the idea log that `extractConversationIdeas` appends to (`IdeaLog`);
  - the one-line conversation summary (`Summary`).
- **Search** (`client/src/lib/search.ts`):
  - the two-path relevance scorer with its stable ranking and limit (`Search`);
  - the snippet extractor `extractHighlights` (`Highlights`);
  - the by-source and by-date store queries (`Search`).
- **Import** (`client/src/lib/import.ts`):
  - the ChatGPT export converter and the generic importer (`Importers`);
  - the `conversations` and `messages` tables they write to (`Importers.ChatStore`);
  - `clearAllData`.

Supporting modules hold the parts the source takes from JavaScript:
- `Text`: the string built-ins (`toLowerCase`, `indexOf`, `includes`, `trim`, `split(/\s+/)`, `join`, `substring`, number rendering);
- `Seqs`: the array built-ins (`new Set` order, `filter`, `slice`, the stable `sort`);
- `Store`: the stored records and the NLP library.

## How the model is built

- **NLP library.** The `compromise` library is a value of type `Nlp`, three arbitrary functions from a text to its nouns, topics and terms. Every property proved holds whatever these return.
- **Store tables.** A table is the sequence of its rows in insertion order. For the auto-incremented tables (`messages`, `ideas`) that is also primary-key order; the `conversations` table is keyed by its UUID, and the model keeps it in insertion order. An indexed `where(...).equals(...)` query is the filter `MessagesOf`. The auto-incremented tables (`messages`, `ideas`) are classes that hold their rows and the next key; `bulkAdd` numbers a batch consecutively.
- **Imperative code becomes methods.** The loops of the source are methods proved against a specification function of the same inputs:
  - `analyzeSentiment` → `AnalyzeSentiment` against `SentimentOf`;
  - the regex `exec` loop → `ScanPattern` against `Scan`;
  - the `Map`-filling loop → `AnalyzeConversationTopics` against `CountAll`;
  - the idea push loops → `CollectIdeas` against `ConversationIdeas`;
  - the search loop → `SearchMessages` against `SearchOf`;
  - the highlight loop → `CollectWindows` against `HighlightsOf`;
  - the import loop → `ConvertChatGPTData` against `ImportedConversations` and `ImportedMessages`.

  The properties the source promises are then lemmas about those functions.
- **Regular expressions.** Each idea pattern is data: keyword alternatives and optional elements, with the shared clause tail `\s+([^.!?]+[.!?])`. `MatchAt` computes what a backtracking engine matches at one position for a pattern of that shape. Keywords are tried in order, each optional element is taken before it is skipped, and the greedy `\s+` gives back a character only when the clause would otherwise be empty. `Exec` is the leftmost match from `lastIndex`.
- **Randomness and time.** `crypto.randomUUID()` is a parameter `uuid` indexed by position in the upload. `new Date()` is a parameter: `clock` for generic import, `now` for idea extraction. `JSON.stringify` is a parameter `stringify`.
- **Numbers.** Scores and percentages are `real`. The `0 / 0` percentage of a conversation without messages (NaN in the source) is `None`.
- **Edge cases kept from the code:**
  - `split(/\s+/)` of the empty text is one empty token, so the empty text scores 0 and is neutral.
  - An empty query makes `indexOf` find the end of the text again and again. Highlight positions therefore only increase strictly up to that point.
  - An empty search query matches every message with relevance 1.
  - The generic importer does not sort its messages, so its conversation's start date can be later than its end date. The ChatGPT importer sorts by creation time, and there start ≤ end is proved.

## Model

| member | source | states |
|---|---|---|
| Keywords.ExtractKeywords | client/src/lib/analysis.ts:15-32 | at most `limit` keywords, no duplicates, each longer than 3 characters and a topic or noun candidate, listed in order of first occurrence among topics-then-nouns; a long candidate is missing only when the list is full of candidates occurring before it |
| Keywords.SelectOrdered | client/src/lib/analysis.ts:23-29 | deduplicate-filter-slice keeps only long candidates, strictly ordered by first occurrence |
| Keywords.SelectComplete | client/src/lib/analysis.ts:24-29 | a long candidate left out implies the selection has exactly `limit` entries, all occurring earlier |
| Keywords.FirstIndexInTopics | client/src/lib/analysis.ts:23 | a candidate first occurs in the topic part of `[...topics, ...nouns]` exactly when it is a topic |
| Keywords.TopicsBeforeNouns | client/src/lib/analysis.ts:23-29 | once a keyword is only a noun, no topic phrase follows it |
| Sentiment.Contribution | client/src/lib/analysis.ts:44-47 | one token changes the counter by at most 1 either way, and by 0 when it contains both a positive and a negative word |
| Sentiment.RawScoreBound | client/src/lib/analysis.ts:41-47 | the counter's absolute value never exceeds the number of tokens |
| Sentiment.AnalyzeSentiment | client/src/lib/analysis.ts:34-57 | the loop computes `SentimentOf(text)`; the score is in [-1, 1]; the label is positive iff score > 0.1, negative iff score < -0.1, neutral otherwise |
| Sentiment.ShortTextUnscaled | client/src/lib/analysis.ts:50 | with at most ten tokens the score is the clamped counter, not divided |
| Sentiment.EmptyTextNeutral | client/src/lib/analysis.ts:41-50 | the empty text splits into one empty token and scores 0, neutral |
| Text.SplitWs | client/src/lib/analysis.ts:41 | at least one field, and no field contains whitespace |
| Text.Lower | client/src/lib/search.ts:60-61 | lower-casing keeps the length and maps each character on its own |
| Text.IndexOf | client/src/lib/search.ts:63 | -1 or an occurrence at or after the clamped start |
| Text.IndexOfFirst | client/src/lib/search.ts:74 | no occurrence lies between the start of the search and its result |
| Text.IndexOfFinds | client/src/lib/search.ts:74 | a search finds an occurrence at or before any occurrence past its start |
| Text.Contains | client/src/lib/search.ts:22 | `includes` holds exactly when some occurrence exists |
| Text.Trim | client/src/lib/analysis.ts:72 | the trimmed text neither starts nor ends with whitespace |
| Text.TrimKeepsEnd | client/src/lib/analysis.ts:72-73 | a text ending in a non-space character loses only its leading whitespace |
| Text.JoinOccurrence | client/src/lib/analysis.ts:150 | every part occurs in the joined text |
| Text.Decimal | client/src/lib/analysis.ts:150 | the rendered count is a non-empty digit string without a leading zero whose value is the count |
| Ideas.Clause | client/src/lib/analysis.ts:64-66 | the tail `\s+([^.!?]+[.!?])` captures after at least one space a clause ending at its first terminator |
| Ideas.TakeOptional | client/src/lib/analysis.ts:64-65 | a taken optional element ends strictly after where it starts, within the text |
| Ideas.MatchRest | client/src/lib/analysis.ts:64-65 | a match of the optional elements and the tail captures a clause after the start |
| Ideas.MatchKeywords | client/src/lib/analysis.ts:64-66 | a match of the keyword alternation captures a clause after the start |
| Ideas.FirstTerminator | client/src/lib/analysis.ts:64 | the first `.`, `!` or `?` at or after a position, or the end |
| Ideas.Exec | client/src/lib/analysis.ts:71 | `exec` returns the leftmost match starting at or after `lastIndex`: no match starts before it, and none exists when it fails |
| Ideas.Scan | client/src/lib/analysis.ts:69-76 | successive matches are clauses, left to right and non-overlapping, each resuming where the previous ended |
| Ideas.ScanLeftmost | client/src/lib/analysis.ts:71 | no match of the pattern starts in a gap the scan skipped |
| Ideas.TrimmedClause | client/src/lib/analysis.ts:72-73 | the trimmed capture is the text from its first non-space character to the terminator |
| Ideas.ClauseIdea | client/src/lib/analysis.ts:72-73 | a kept capture is longer than 10, starts with a non-space, ends at its only terminator and occurs in the text |
| Ideas.KeptAreIdeas | client/src/lib/analysis.ts:72-74 | every kept capture of a scan is such an idea and occurs in the text |
| Ideas.ScanPattern | client/src/lib/analysis.ts:69-76 | the `while (pattern.exec(text))` loop yields exactly the kept captures of the scan, in order |
| Ideas.ExtractIdeas | client/src/lib/analysis.ts:59-79 | the result is pattern 1's ideas, then pattern 2's, then pattern 3's, and each is an idea occurring in the text |
| Ideas.ExtractedAreIdeas | client/src/lib/analysis.ts:63-76 | every idea any list of patterns yields has the idea shape and occurs in the text |
| Store.MessagesOf | client/src/lib/analysis.ts:82-85 | the query returns stored messages of that conversation and all of them |
| Store.MessagesOfConcat | client/src/lib/analysis.ts:82-85 | querying two runs of rows queries each run |
| Topics.MapSet | client/src/lib/analysis.ts:96 | `set` makes `get(k)` the new value, changes no other key, appends a new key and keeps an existing key's place |
| Topics.MentionCount | client/src/lib/analysis.ts:93-95 | the count of mentioning messages is at most the number of messages |
| Topics.CountAllIsTally | client/src/lib/analysis.ts:90-97 | for duplicate-free keywords the filled map is each keyword with its count, in keyword order |
| Topics.CountAllDistinct | client/src/lib/analysis.ts:90-97 | for duplicate-free keywords the map has one entry per keyword, holding its mention count |
| Topics.Rows | client/src/lib/analysis.ts:100-105 | one record per map entry with its key, count and percentage |
| Topics.PercentageBounds | client/src/lib/analysis.ts:104 | with messages present, the percentage lies between 0 and 100 |
| Topics.AnalyzeConversationTopics | client/src/lib/analysis.ts:81-110 | the map-filling loop, sort and cut compute `TopicsOf` |
| Topics.UnrankedRows | client/src/lib/analysis.ts:92-105 | each unranked record is the i-th keyword with its mention count (at most the message count) and a percentage in [0, 100] |
| Topics.TopicsRanked | client/src/lib/analysis.ts:106-107 | at most ten topics, counts non-increasing |
| Topics.TopicsAreKeywords | client/src/lib/analysis.ts:88-107 | each topic is a keyword of the conversation with its mention count and `100 * count / total` |
| Topics.TopicsDistinct | client/src/lib/analysis.ts:88-107 | no topic is listed twice |
| Topics.TopTen | client/src/lib/analysis.ts:106-107 | a keyword left out means ten topics are listed, each mentioned at least as often |
| Topics.TiesInKeywordOrder | client/src/lib/analysis.ts:106 | listed topics with equal count keep keyword order: for each count they are a prefix of the keywords with that count |
| IdeaLog.MessageIdeas | client/src/lib/analysis.ts:123-130 | one record per idea of a message, with the conversation, the message's id, the idea and the time |
| IdeaLog.ConversationIdeasShape | client/src/lib/analysis.ts:118-131 | every collected record is keyless, belongs to the conversation, carries an idea and points at a message whose text contains it |
| IdeaLog.CollectIdeas | client/src/lib/analysis.ts:118-131 | the nested push loops collect the ideas message by message, each message's in extraction order |
| IdeaLog.IdeaTable.constructor | client/src/lib/db.ts:52 | the new table is empty and will hand out key 1 first |
| IdeaLog.IdeaTable.BulkAdd | client/src/lib/analysis.ts:134 | the batch is appended with consecutive keys; keys stay increasing |
| IdeaLog.IdeaTable.Clear | client/src/lib/import.ts:115 | all rows go, the key counter stays |
| IdeaLog.IdeaTable.ExtractConversationIdeas | client/src/lib/analysis.ts:112-136 | appends exactly the conversation's collected ideas, numbered; nothing when there are none; a second run appends the same records again under new keys |
| Summary.SentenceParts | client/src/lib/analysis.ts:150 | where each hole of the template lands in the sentence |
| Summary.GenerateConversationSummary | client/src/lib/analysis.ts:138-153 | the result is "No messages found." exactly when the conversation has no messages |
| Summary.SummaryKeywordSlot | client/src/lib/analysis.ts:146-150 | the summary opens with the intro, the count and " messages discussing ", followed by at most five keywords joined by ", " |
| Summary.SummaryCount | client/src/lib/analysis.ts:150 | the digits after the opening words denote the number of messages |
| Summary.SentenceTail | client/src/lib/analysis.ts:150 | the template ends with ". Overall sentiment: <label>." |
| Summary.SummaryEndsWithSentiment | client/src/lib/analysis.ts:148-150 | the summary ends with the sentiment label of the joined texts |
| Summary.SummaryMentionsKeywords | client/src/lib/analysis.ts:146-150 | each of the (at most five) keywords occurs in the summary |
| Highlights.Window | client/src/lib/search.ts:66-71 | a window is at most the query plus 100 characters each side plus two ellipses |
| Highlights.WindowParts | client/src/lib/search.ts:66-71 | a window is `text[start..end]` with start = max(0, i-100), end = min(len, i+|query|+100), "..." before iff start > 0 and after iff end < len |
| Highlights.Windows | client/src/lib/search.ts:65-75 | one window per visited position, in order |
| Highlights.Visits | client/src/lib/search.ts:63-74 | the loop visits at most as many positions as it has room for |
| Highlights.VisitsAreOccurrences | client/src/lib/search.ts:63-74 | every visited position is an occurrence of the lower-cased query at or after the start |
| Highlights.VisitsAscending | client/src/lib/search.ts:74 | visited positions strictly increase, except the empty query found repeatedly at the end |
| Highlights.OccurrencesComplete | client/src/lib/search.ts:63-75 | every occurrence (overlapping ones included) is visited unless three were visited before it |
| Highlights.HighlightsCount | client/src/lib/search.ts:65-77 | between one and three snippets |
| Highlights.CollectWindows | client/src/lib/search.ts:65-75 | the loop collects one window per occurrence visited, exactly the specified windows |
| Highlights.NextHighlight | client/src/lib/search.ts:66-74 | one loop step adds the window of the current occurrence and searches again from one past it |
| Highlights.ExtractHighlights | client/src/lib/search.ts:58-78 | the result is the windows, or the fallback when there are none |
| Highlights.FallbackIffNoMatch | client/src/lib/search.ts:77 | no occurrence exactly when the lower-cased text does not contain the lower-cased query, and then the one snippet is the first 200 characters plus "..." |
| Highlights.WindowContainsQuery | client/src/lib/search.ts:66-71 | a window around an occurrence contains the query, ignoring case |
| Highlights.HighlightsShowQuery | client/src/lib/search.ts:65-75 | when the text contains the query, every snippet does |
| Search.Terms | client/src/lib/search.ts:16 | the lower-cased terms, one per library term |
| Search.MatchingKeywords | client/src/lib/search.ts:36-38 | the query terms kept are exactly those contained in or containing some message term |
| Search.Ratio | client/src/lib/search.ts:41 | the keyword score lies in (0, 1] and is 1 exactly when every query term matches |
| Search.Evaluate | client/src/lib/search.ts:18-49 | a message is a result iff it contains the query (ignoring case) or some terms match; exact matches score 1 with snippets around the query, others score matching/query terms with snippets around the joined matches |
| Search.SearchMessages | client/src/lib/search.ts:10-56 | the loop, sort and cut compute `SearchOf` |
| Search.CandidatesAreHits | client/src/lib/search.ts:18-50 | one result per hit message, in store order |
| Search.ResultsRanked | client/src/lib/search.ts:53-55 | at most `limit` results (for a non-negative limit), all candidates, relevance non-increasing |
| Search.ResultsAreHits | client/src/lib/search.ts:18-55 | each result is what its stored message evaluates to, with relevance in (0, 1], and 1 for exact matches |
| Search.TiesInStoreOrder | client/src/lib/search.ts:54 | results of equal relevance keep store order |
| Search.TopResults | client/src/lib/search.ts:53-55 | a hit left out is no more relevant than any result, and with a non-negative limit is left out only when the limit is reached |
| Search.EmptyQueryMatches | client/src/lib/search.ts:22 | every message contains the empty query |
| Search.EmptyQueryCandidates | client/src/lib/search.ts:18-30 | the empty query makes every message a result with relevance 1 |
| Search.EmptyQueryListsAll | client/src/lib/search.ts:10-56 | the empty query returns the first `limit` messages in store order |
| Search.SearchBySource | client/src/lib/search.ts:90-97 | exactly the messages from that source |
| Search.SearchByDateRange | client/src/lib/search.ts:80-88 | exactly the messages with start ≤ timestamp < end, ordered by timestamp, store order among equal timestamps |
| Seqs.Dedup | client/src/lib/analysis.ts:24 | `Array.from(new Set(s))` has no duplicates, the same elements, in order of first occurrence |
| Seqs.Filter | client/src/lib/analysis.ts:28 | the kept elements satisfy the predicate, and every element satisfying it is kept |
| Seqs.FilterIncreasing | client/src/lib/analysis.ts:27-28 | filtering keeps an increasing ranking increasing |
| Seqs.Take | client/src/lib/analysis.ts:29 | `slice(0, n)` (and `substring(0, n)`) is the prefix of length min(n, length) |
| Store.Numbered | client/src/lib/db.ts:50-52 | `bulkAdd` on an auto-incremented table gives the k-th row of the batch the key next + k and changes nothing else in it |
| Seqs.SliceTo | client/src/lib/search.ts:55 | `slice(0, end)` is a prefix; a negative end counts back from the end |
| Seqs.SortBy | client/src/lib/analysis.ts:106 | the numeric-comparator sort is sorted, a permutation, and stable: elements of each key keep their order |
| Seqs.StableSortUnique | client/src/lib/search.ts:54 | only one arrangement is sorted and stable, so the sort is determined |
| Seqs.RankedFrom | client/src/lib/analysis.ts:106-107 | the first n of a sort come from the input and are distinct when it is |
| Seqs.KeyClassOfPrefix | client/src/lib/analysis.ts:107 | cutting a sorted list keeps, for each key, a prefix of the elements with that key |
| Seqs.SortByMembers | client/src/lib/import.ts:32 | sorting keeps exactly the input's elements |
| Seqs.GatherKept | client/src/lib/search.ts:18-50 | pushing one result per qualifying element gives one result per kept element, in order |
| Importers.Items | client/src/lib/import.ts:23 | an array upload is its elements, anything else a one-element array |
| Importers.Millis | client/src/lib/import.ts:39 | `new Date(seconds * 1000)` keeps whole milliseconds, cutting the fraction toward zero |
| Importers.MillisMonotone | client/src/lib/import.ts:39 | later export times never give earlier timestamps |
| Importers.ConversationMessagesCount | client/src/lib/import.ts:28-42 | one message per mapping node that has a message with parts |
| Importers.MessageFromNode | client/src/lib/import.ts:28-42 | each message is built from a qualifying node: role user iff the author is user (else assistant), parts joined by "\n", time in milliseconds, the conversation's id |
| Importers.NodeGivesMessage | client/src/lib/import.ts:28-42 | each qualifying node gives such a message |
| Importers.ConversationMessagesInOrder | client/src/lib/import.ts:30-39 | messages are in timestamp order, a missing time counting as 0 |
| Importers.ChatGPTConversationSpan | client/src/lib/import.ts:44-51 | start date ≤ every timestamp ≤ end date, count = qualifying nodes ≥ 1, title the exported one or "Untitled Conversation" |
| Importers.ConvertChatGPTData | client/src/lib/import.ts:25-54 | the conversion loop builds `ImportedConversations` and `ImportedMessages`, skipping exports without messages |
| Importers.ImportedConversationsStep | client/src/lib/import.ts:34-53 | an export adds its one record exactly when it has messages |
| Importers.ImportedConversationCount | client/src/lib/import.ts:34-62 | the conversation count is the number of exports with a qualifying node |
| Importers.ImportedMessageTotal | client/src/lib/import.ts:53-63 | the message count is the sum of the conversations' message counts |
| Importers.ImportedConversationsFrom | client/src/lib/import.ts:25-53 | every record comes from an export with messages, under that export's id |
| Importers.ImportedConversationOf | client/src/lib/import.ts:25-53 | every export with messages has its record |
| Importers.ImportedConversationsValid | client/src/lib/import.ts:44-51 | every record is a ChatGPT conversation with ≥ 1 message, start ≤ end, non-empty title |
| Importers.ImportedMessagesOwner | client/src/lib/import.ts:27-54 | every message carries the id drawn for its export |
| Importers.MessagesOfImported | client/src/lib/import.ts:27-59 | with distinct ids, querying a conversation's id returns exactly its messages, in order |
| Importers.StoredCountsAgree | client/src/lib/import.ts:44-59 | with distinct ids, each record's count equals the stored messages pointing at it |
| Importers.MessageHasConversation | client/src/lib/import.ts:27-59 | every stored message points at a stored conversation |
| Importers.GenericMessages | client/src/lib/import.ts:81-87 | one message per element, built at its index |
| Importers.GenericMessageFields | client/src/lib/import.ts:81-87 | role falls back to user at even and assistant at odd index; content is `content` if non-empty, else `text` if non-empty, else the serialisation of the item; time is a non-zero `timestamp`, else the clock |
| Importers.GenericImportShape | client/src/lib/import.ts:76-103 | one "Imported Conversation" iff the upload has elements, counting all of them, all stored under its id |
| Importers.ChatStore.constructor | client/src/lib/db.ts:49-51 | the new tables are empty and key 1 comes first |
| Importers.ChatStore.BulkAddConversations | client/src/lib/import.ts:58 | conversations appended, messages untouched |
| Importers.ChatStore.BulkAddMessages | client/src/lib/import.ts:59 | messages appended with consecutive keys; keys stay increasing |
| Importers.ChatStore.Clear | client/src/lib/import.ts:113-114 | both tables emptied, key counter kept |
| Importers.ImportChatGPTData | client/src/lib/import.ts:18-65 | stores the converted conversations and keyed messages and returns their numbers |
| Importers.ImportGenericData | client/src/lib/import.ts:67-110 | stores one conversation and its keyed messages when the upload is non-empty, nothing otherwise, and returns the numbers |
| Importers.ClearAllData | client/src/lib/import.ts:112-117 | the message, conversation and idea tables are empty afterwards, key counters kept |

## Left out

- The `compromise` NLP library is not modelled: its noun, topic and term lists are arbitrary functions of the text.
- Dexie and IndexedDB are not modelled beyond the table contents:
  - asynchrony, transactions and failures;
  - the secondary indexes, except the order their queries return;
  - the `analysisCache` table, which `clearAllData` also empties.
- The `conversations` table is kept in insertion order; IndexedDB would list it in the order of its UUID keys. No operation modelled here reads that table back, so only the order of the model's sequence differs.
- The `conversations` table's primary key is not enforced: `bulkAdd` rejects a conversation whose id is already stored, and the model appends it anyway. The import lemmas instead require the drawn identifiers to be distinct (`Unique`).
- Floating point is not modelled: scores and percentages are exact reals, NaN is `None`, and `create_time * 1000` is exact.
- Importers.Millis: `new Date` clips to ±8.64·10^15 ms (invalid date beyond); the model keeps any integer.
- Keywords.IsLong, Ideas.Kept, Ideas.IsIdea, Highlights.Window, Highlights.HighlightsOf: lengths and positions count Unicode code points, where JavaScript counts UTF-16 code units (`k.length > 3`, `trim().length > 10`, the 100-character context, `substring(0, 200)`). Text with characters outside the Basic Multilingual Plane can therefore be kept, dropped or cut differently, and JavaScript's `substring` can split a surrogate pair, which the model cannot.
- Text.Lower folds ASCII letters only; JavaScript's `toLowerCase` also folds other scripts, some of them changing length.
- The exported JSON is typed: `parts` and `content` are strings. A generic `timestamp` is a whole number of milliseconds (`Option<int>`); a string timestamp parsed by `new Date(string)` (client/src/lib/import.ts:84) and a fractional or out-of-range number are not modelled.
- `crypto.randomUUID()`, `new Date()` and `JSON.stringify` are parameters rather than computations. The source reads the clock once per idea; `CollectIdeas` uses one time for a whole run.
- Regular expressions are modelled for the three idea patterns only, not in general.
- The React pages, routing and display rounding are not part of this model.
