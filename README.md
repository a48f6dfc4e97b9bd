# Korean parliamentary minutes RAG — a Dafny model

This project models the deterministic core of a set of Python scripts. The scripts answer questions over the minutes of the Korean National Assembly by retrieval-augmented generation. The model covers three parts.

**Query routing and retrieval.** This covers the three front ends: the hybrid front end (`HybridInternalExternalRAG`), the LangGraph agent (`SearchAgents` with its four nodes and three routes) and the naive front end (`AccessibleAssemblyMinutesRAG`).
- the first-match query expander and the keyword-scoring strategy classifier;
- the bounded FIFO embedding cache;
- the assembly of external (web) results;
- the four merge policies of `hybrid_search`, including the round-robin `hybrid_balanced` loop;
- the numbered context builders;
- the `ask` control flow;
- the command prefixes of the interactive loop;
- the agent's state machine and driver;
- the naive front end's top-k search, context and voice-friendly summary.

**Transcript parsing.** This covers the statement pipeline (`0_fin.py`) and the stand-alone parser (`2_filenameparsing.py`):
- the file-name pattern;
- the speaker-pattern table, first match wins, with party extraction;
- the content-type classifier, bill names and vote counts;
- statement construction from a transcript's entries;
- the batched statement embedding.

**Embedding-document preparation.** This covers `3_embeddingArch.py`, `2_embedding_index.py` and `embedding_index_create_JH.py`:
- the contextual texts;
- the batched embedding loops that pad or skip failed batches;
- the speaker profile text;
- the search documents built from each response;
- the row-key filter of the loader;
- batched upload.

## Modelling choices

- **External services become parameters.** These are the embedding service, the search index, the web search client and the answer generator. Each is a function-typed parameter of type `seq<string> -> Option<seq<Vector>>`, or similar. `None` is the case where the call raises.
- **Date formatting is a parameter.** `strftime`/`_safe_date_format` is a `Date -> string` parameter, so the model says where a formatted date goes but not what it looks like. The one exception is the ISO date of `format_text`, which is written out.
- **Regular expressions are written out.** The file-name pattern, the speaker titles, the party alternation and the vote patterns are hand-coded as greedy runs over character classes. The four speaker patterns with optional groups and `.*` are oracle parameters (`Matcher`). So is the bill-name pattern.
- **Python sets are fixed only up to order.** Where the source iterates a Python set, the model fixes the contents and leaves the order to any enumeration (`Common.Enumerates`).
- **Strings are `seq<char>`.** `\s` is the exact set of `str.isspace`. `\d` is ASCII digits only.
- **The profile keeps its in-string remarks.** `create_speaker_profile_embedding` writes `# 최대 10개` and `# 최대 5개 발언 요약` inside its triple-quoted f-string. They are part of the embedded text and appear verbatim in `EmbeddingDocs.ProfileText`.
- **A short embedding response yields a partial batch.** In the two index builders, a response with fewer vectors than texts raises at `response.data[j]` after the earlier documents of that batch were appended. The model keeps those earlier documents, as the code does.
- **The unused speech summary appears as "None".** A missing speech summary prints as `None` in the index texts (`Text.Show`), as the f-string does.

## Model

| member | source | states |
|---|---|---|
| QueryRouting.Expand | total_rag_test.py:113-134 | the query is unchanged iff no table key occurs in it; otherwise it is `query + " " + expansion` of the first key in table order that occurs |
| QueryRouting.ExpandQuery | agent_JH.py:113-136 | the scanning loop with `break` returns exactly `Expand` of the table |
| QueryRouting.ExpandFirstKeyWins | naive_rag_test.py:105-128 | a key that occurs with no earlier key occurring decides the expansion, whatever later keys occur |
| QueryRouting.AgentClimateBeforeEnvironment | agent_JH.py:113-136 | a query containing both `기후변화` and `환경` (and no earlier key) gets the climate expansion |
| QueryRouting.ExpandKeepsEarlyMatch | total_rag_test.py:124-134 | a key found in the first rows decides, whatever rows follow |
| QueryRouting.EnvironmentOnlyExpandedByAgent | total_rag_test.py:116-123 | keys only the agent's table has leave a query unchanged in the other front ends |
| QueryRouting.ExpandSkipsAbsentKeys | total_rag_test.py:124-134 | rows whose key is absent from the query do not affect the result |
| QueryRouting.StrategyName | total_rag_test.py:136-169 | every strategy has a non-empty name; `StrategyNameInjective` and `StrategyNameRoundTrip` make the names distinct and readable back |
| QueryRouting.StrategyOf | total_rag_test.py:264-317 | `hybrid_search`'s branch tests read a name back as its strategy; any other string goes to the default branch |
| QueryRouting.StrategyNameRoundTrip | total_rag_test.py:264-317 | every strategy name is read back as the strategy it names |
| QueryRouting.StrategyNameInjective | agent_JH.py:233-263 | distinct strategies have distinct names |
| QueryRouting.Classify | total_rag_test.py:136-169 | assembly score ≥ 2 → internal_only, else current ≥ 1 → external_priority, else general ≥ 1 → hybrid_balanced, else hybrid_internal_priority |
| QueryRouting.ScoreIsDistinctCount | total_rag_test.py:152-156 | a score is the size of the set of keywords present, so a repeated keyword counts once |
| QueryRouting.ClassifierScoreCountsDistinctKeywords | agent_JH.py:250-254 | each score of both classifiers counts the distinct keywords of its list in the query as typed |
| QueryRouting.ClassifierListWellFormed | total_rag_test.py:139-150 | the keyword lists have no duplicates and no ASCII letters |
| QueryRouting.AppendWellFormed | agent_JH.py:236-240 | adding `발의안` to the assembly list keeps it duplicate-free and letter-free |
| QueryRouting.AgentAssemblyListWellFormed | agent_JH.py:236-240 | the agent's 15-keyword assembly list is duplicate-free and letter-free |
| QueryRouting.ScoreIgnoresCase | total_rag_test.py:151-156 | `query.lower()` never changes a score, since the keywords are Hangul and digits only |
| Text.LowerKeepsLetterFreeOccurrences | total_rag_test.py:155-160 | a keyword with no ASCII letter occurs in `lower()` of a text iff it occurs in the text |
| QueryRouting.MemberQueryIsInternalOnly | total_rag_test.py:139-142 | a query containing `국회의원` scores `국회`, `의원` and `국회의원` and is classified internal_only |
| QueryRouting.AgentKeepsInternalOnly | agent_JH.py:233-263 | whatever the hybrid classifier sends to internal_only, the agent's classifier does too |
| QueryRouting.InternalOnlyByScore | total_rag_test.py:162-163 | an assembly score of at least two decides internal_only whatever the other scores |
| QueryRouting.ParseCommand | total_rag_test.py:552-576 | a quit word, after `strip()` and `lower()`, quits; otherwise a blank line is skipped; without a prefix the stripped line is the question; a forced strategy always comes with a non-empty question |
| QueryRouting.ParsePrefix | total_rag_test.py:560-576 | always a question: the line itself when no prefix applies, a non-empty remainder when one does |
| QueryRouting.ForcedQuery | total_rag_test.py:562-573 | `query[cut:].strip()` is the text after the command word |
| QueryRouting.InternalPriorityCommand | total_rag_test.py:566-571 | `/국회우선 q` is recognised as the internal-priority command, not as `/국회 ` |
| QueryRouting.OnlyInternalPriorityPrefix | total_rag_test.py:560-571 | a line starting `/국회우선 ` starts with none of the other three prefixes |
| EmbeddingCache.Lookup | total_rag_test.py:96-111 | a lookup keeps the cache well formed (within its bound, order and keys agreeing) and asks the provider at most once |
| EmbeddingCache.Cache.constructor | total_rag_test.py:59-60 | the cache starts empty with the given bound |
| EmbeddingCache.HitChangesNothing | naive_rag_test.py:86-103 | a hit leaves the dictionary, and its order, unchanged and makes no request |
| EmbeddingCache.MissEvictsOldest | agent_JH.py:96-111 | a miss on a full cache removes exactly the oldest key, keeps the others in order and appends the new key |
| EmbeddingCache.MissAppends | total_rag_test.py:101-111 | a miss the provider answers stores the text last, after making room |
| EmbeddingCache.LookupAgreesWithProvider | total_rag_test.py:96-111 | with a deterministic provider, a lookup returns what the provider would, and stored vectors stay the provider's |
| EmbeddingCache.RepeatedLookupCallsOnce | total_rag_test.py:96-111 | two lookups of one text cost at most one provider request and agree |
| EmbeddingCache.DistinctTextsKeepNewest | total_rag_test.py:59-60 | feeding distinct texts leaves exactly the newest `max_cache_size` of them, oldest first |
| EmbeddingCache.LastNSnoc | total_rag_test.py:101-111 | one more insertion: the new key joins, and the oldest leaves when the cache was full |
| EmbeddingCache.Cache.Get | total_rag_test.py:96-111 | the method's result and new dictionary are those of `Lookup` |
| EmbeddingCache.LookupTwice | naive_rag_test.py:86-103 | after a successful first lookup, the second is served from the cache |
| Documents.SourceTypesPartition | total_rag_test.py:345-352 | every document is internal or external, never both |
| Documents.SafeDate | total_rag_test.py:69-94 | a missing or empty date reads as "no date information"; any other goes to the formatter |
| Documents.ExternalSearch | total_rag_test.py:216-262 | no client or an error gives `[]`; otherwise the summary document (score 1.0) comes first when the answer is non-empty, then one web document per result in provider order |
| Documents.SummaryComesFirst | agent_JH.py:188-231 | the summary document, when present, is the first and the only one |
| Documents.SearchIndex | total_rag_test.py:171-214 | the cache left is that of looking up the expanded query; hits are returned only when that lookup succeeded and the index answered with them, so any failure gives none; and when both succeed, the hits are exactly the index's answer for the vector the lookup gave |
| Documents.SearchMinutes | agent_JH.py:142-186 | the method on the cache object returns `SearchIndex` and the cache it leaves |
| Documents.InternalDocs | total_rag_test.py:189-210 | one internal document per hit, in order |
| HybridRag.ConcatMergesTruncate | total_rag_test.py:273-284 | external_priority and the default keep at most `k` documents: the preferred source first, then the other, each in its own order |
| HybridRag.BalancedKeepsOrder | total_rag_test.py:286-304 | the balanced merge lists a prefix of the internal results and a prefix of the web results, each in its own order |
| HybridRag.HybridSearch | total_rag_test.py:264-330 | the cache left stays well formed; what each strategy returns is stated by `HybridSearchRequests` and the lemmas below |
| HybridRag.HybridSearchRequests | total_rag_test.py:264-330 | the sizes each strategy asks for and how it merges them: external_priority asks the web for `k/2+2` and the index for `k/2`, puts the web first and keeps `k`; hybrid_balanced asks each for `k/2` and interleaves them; internal_priority asks the index for `k/2+2` and the web for `k/2`, puts the index first and keeps `k`; the cache left is that of the expanded query's lookup |
| HybridRag.InternalOnlyIgnoresWeb | total_rag_test.py:269-271 | internal_only returns the internal search unchanged and does not depend on the web client |
| HybridRag.HybridSearchLength | total_rag_test.py:286-317 | for `k ≥ 1` and any strategy other than internal_only (which returns the index's hits untouched), at most `k+1` documents, and at most `k` unless the strategy is hybrid_balanced |
| HybridRag.HybridContext | total_rag_test.py:332-387 | the fixed sentence on no documents; otherwise the summary line carrying the internal and external counts, followed by one block per document, numbered `1..n` in input order, joined by newlines |
| HybridRag.HybridBlocksSnoc | total_rag_test.py:354-387 | one more document appends a newline and its block, numbered one past the others |
| HybridRag.HybridContextSnoc | total_rag_test.py:341-387 | one more document raises the count of its own source type by one and appends its block after a newline |
| HybridRag.ContextCountsCoverAll | total_rag_test.py:345-352 | the two counts add up to the number of documents |
| HybridRag.BuildHybridContext | total_rag_test.py:332-387 | the counting loop returns exactly `HybridContext` |
| HybridRag.ChooseStrategy | total_rag_test.py:466-471 | a truthy forced strategy wins; otherwise the classifier decides |
| HybridRag.Ask | total_rag_test.py:457-532 | the cache left stays well formed; the two paths are stated by `AskPaths` |
| HybridRag.AskPaths | total_rag_test.py:476-532 | the two paths of `ask`, stated on the search result |
| HybridRag.SearchIgnoresGenerator | total_rag_test.py:264-330 | the search result does not depend on the generator |
| HybridRag.NothingFoundIgnoresGenerator | total_rag_test.py:476-484 | with no documents the reply is the same whatever the generator would say, so it is not called |
| HybridRag.ForceOverridesClassifier | total_rag_test.py:466-471 | a forced strategy reaches the search unchanged |
| HybridRag.Rag.HybridSearchDocs | total_rag_test.py:264-330 | the method returns `HybridSearch`, using the balanced loop for hybrid_balanced |
| HybridRag.Rag.constructor | total_rag_test.py:37-60 | the front end starts with an empty cache bounded by 1000 |
| HybridRag.Rag.AskQuestion | total_rag_test.py:457-532 | the method returns `Ask` and the cache it leaves |
| RoundRobin.BalancedIsRoundPrefix | total_rag_test.py:292-304 | the balanced merge is whole rounds, stopped at the first round that reaches `k`: a round-aligned prefix of the full interleave |
| RoundRobin.BalancedLength | total_rag_test.py:297-304 | the merge overshoots `k` by at most one, and holds at most one round (two documents) for `k = 0`; it keeps at least `min(k, |a|+|b|)` documents |
| RoundRobin.RoundsKeepFirstOrder | total_rag_test.py:297-301 | the elements of the first `n` rounds taken from `a` are `a`'s first elements in order |
| RoundRobin.RoundsKeepSecondOrder | total_rag_test.py:297-301 | the same for `b` |
| RoundRobin.BalancedKeepsFirstOrder | total_rag_test.py:286-304 | the merge lists a prefix of the internal source, in its order |
| RoundRobin.BalancedKeepsSecondOrder | total_rag_test.py:286-304 | the merge lists a prefix of the external source, in its order |
| RoundRobin.BalancedExample | total_rag_test.py:292-304 | `[1,2,3]` and `[10,20]` give all five with `k = 5`, and four (two rounds) with `k = 3` |
| RoundRobin.BalancedInterleave | total_rag_test.py:292-304 | the `while` loop with `break` returns exactly the balanced merge |
| NaiveRag.SemanticSearch | naive_rag_test.py:130-187 | `2*k` neighbours are requested and the first `k` hits returned, in index order |
| NaiveRag.SemanticSearchFailures | naive_rag_test.py:185-187 | any failure gives `[]` |
| NaiveRag.NaiveContext | naive_rag_test.py:189-222 | the fixed sentence on no hits; otherwise the text starts with the block of the first hit numbered 1, and one hit gives that block alone |
| NaiveRag.BuildNaiveContext | naive_rag_test.py:189-222 | the loop returns exactly `NaiveContext` |
| NaiveRag.NaiveContextSnoc | naive_rag_test.py:196-222 | one more hit adds its block, numbered one past the others |
| NaiveRag.VoiceSummary | naive_rag_test.py:347-381 | `검색 결과가 없습니다.` on no hits; otherwise the summary starts with the count sentence |
| NaiveRag.VoiceSummaryParts | naive_rag_test.py:364-381 | one sentence per kind of information present, the first stating `len(documents)` |
| NaiveRag.SpeakerSentenceNames | naive_rag_test.py:366-372 | more than three distinct speakers: three different ones named with `등`; otherwise all are named |
| NaiveRag.DateSentenceEnds | naive_rag_test.py:373-379 | one distinct date is stated alone; several are stated by the least and greatest in sorted order |
| Text.LexMinIsLeast | naive_rag_test.py:375-377 | the first of the sorted dates is at most every date |
| Text.LexMaxIsGreatest | naive_rag_test.py:375-377 | the last of the sorted dates is at least every date |
| NaiveRag.SummarySetsStep | naive_rag_test.py:356-363 | each hit adds its speaker and its date, when it has them |
| NaiveRag.VoiceSummaryIgnoresAssembly | naive_rag_test.py:356-363 | the collected assembly numbers never affect the summary |
| NaiveRag.DateSentenceAgrees | naive_rag_test.py:373-379 | two date lists with the same distinct dates give the same sentence |
| NaiveRag.SameSpeakersAndDates | naive_rag_test.py:356-363 | rows differing only in assembly number give the same speaker set and date list |
| NaiveRag.NaiveAsk | naive_rag_test.py:283-345 | sources are empty exactly when no answer was generated, at most `k` are returned, and the cache stays well formed |
| NaiveRag.NaiveAskPaths | naive_rag_test.py:294-302 | with no hits the reply does not depend on the generator |
| NaiveRag.NaiveRag.SemanticSearchDocuments | naive_rag_test.py:130-187 | the method returns `SemanticSearch` and the cache it leaves |
| NaiveRag.NaiveRag.constructor | naive_rag_test.py:33-49 | the front end starts with an empty cache bounded by 1000 |
| NaiveRag.NaiveRag.VoiceFriendlySummary | naive_rag_test.py:347-381 | the set-filling loop returns `VoiceSummary` for some enumeration of the speaker set |
| Agent.InitialState | main_JH.py:21-30 | one user message, empty query, strategy and results, `step_count` 0 |
| Agent.EntryStep | agent_JH.py:266-295 | no messages → `질문이 없습니다.`; a last message not from the user → `유효한 질문을 찾을 수 없습니다.`; else the query is its content; `step_count` + 1, nothing else changes |
| Agent.StrategyStep | agent_JH.py:297-324 | a non-empty query is classified with the agent's lists; `step_count` + 1 |
| Agent.SearchStep | agent_JH.py:326-386 | without a query or a strategy only the answer (`MissingSearchInput`) and `step_count` change; otherwise only the two lists, the answer and `step_count` can; the cache stays well formed |
| Agent.SearchStepSizes | agent_JH.py:343-369 | internal_only 5/0, external_priority 2/3, hybrid_balanced 3/2, default 4/1; the web is asked only when its share is non-zero |
| Agent.AgentBlocks | agent_JH.py:401-425 | internal blocks numbered `1..n`, then web blocks `n+1..n+m`, each list in its own order |
| Agent.BuildAgentContext | agent_JH.py:401-425 | the two loops return exactly the joined `AgentBlocks` |
| Agent.AnswerStep | agent_JH.py:388-503 | the generator's answer over the context, or the error message when it fails; `step_count` + 1 |
| Agent.RouteAfterEntry | agent_JH.py:506-519 | end when `step_count > 10`; otherwise strategy iff the stripped query is non-empty |
| Agent.RouteAfterStrategy | agent_JH.py:521-533 | end when `step_count > 10`; otherwise search iff a strategy is set |
| Agent.RouteAfterSearch | agent_JH.py:535-548 | end when `step_count > 10`; otherwise answer iff either list is non-empty |
| Agent.Merged | agent_JH.py:34-43 | the graph's reducer for a node's returned state: `messages` is the old list followed by the returned one, every other field is the returned one |
| Agent.RunNode | agent_JH.py:266-503 | every node adds exactly one step; since every node returns the whole state, the reducer doubles `messages` |
| Agent.Step | agent_JH.py:551-597 | one driver step adds one step, doubles the message list without adding a new message, and moves only to the next node of the graph order; the cache stays well formed |
| Agent.RunFrom | agent_JH.py:551-597 | a run from a node visits that node first |
| Agent.DriverStep | agent_JH.py:551-597 | one turn of the driver keeps "visited so far, then the rest of the run, is the whole run" |
| Agent.RunCountsSteps | agent_JH.py:551-597 | every node of a run adds one step, and a run visits at most the nodes up to the answer node |
| Agent.RunDoublesMessages | agent_JH.py:551-597 | a run ends with its starting message count doubled once per node visited |
| Agent.DoubledIsPow2 | agent_JH.py:551-597 | doubling `n` times multiplies by `2 ** n` |
| Agent.RunKeepsMessages | agent_JH.py:551-597 | a run's messages are exactly the messages it started with, repeated |
| Agent.InvokeMessages | main_JH.py:21-30 | from the initial state the list ends as `2 ** n` copies of the question for `n` nodes visited: sixteen after a full run |
| Agent.RunFollowsPath | agent_JH.py:551-597 | the nodes of a run follow the graph's edges in order |
| Agent.RunKeepsCacheWellFormed | agent_JH.py:96-111 | the cache stays well formed through a run |
| Agent.InvokeVisitsPrefix | agent_JH.py:551-597 | a run visits a non-empty prefix of entry, strategy, search, answer, and `step_count` rises by the number of nodes visited |
| Agent.RanksFormPrefix | agent_JH.py:551-597 | nodes ranked 0, 1, 2, … in turn are a prefix of the graph order |
| Agent.CeilingNotReached | agent_JH.py:506-548 | starting at most seven steps in, the `> 10` guard never changes the run |
| Agent.InitialRunIsShort | main_JH.py:21-30 | from the initial state a run takes at most four steps and the ceiling never ends it |
| Agent.BlankQuestionStopsAtEntry | agent_JH.py:506-519 | a blank question ends the run at the entry node |
| Agent.AnswerNeedsResults | agent_JH.py:535-548 | the answer node runs only when the search found something |
| Agent.SearchInternalOnly | agent_JH.py:348-353 | with internal_only the web tool is never called and the web list stays empty |
| Agent.StrategyInternalOnly | agent_JH.py:297-324 | a question classified internal_only goes on to a minutes-only search |
| Agent.MemberQuestionSearchesInternalOnly | agent_JH.py:233-263 | a question naming `국회의원` reaches the search with internal_only and the web is never searched |
| Agent.EntryTakesQuestion | agent_JH.py:266-295 | the entry node takes a non-blank question from the initial state and routes it to the strategy node |
| Agent.SearchAgents.Search | agent_JH.py:326-386 | the method's new state is `SearchStep`'s, with the cache object updated as the lookup does |
| Agent.SearchAgents.constructor | agent_JH.py:48-66 | the agent starts with an empty cache bounded by 1000 |
| Agent.SearchAgents.Answer | agent_JH.py:388-503 | the method returns the state of `AnswerStep` |
| Agent.SearchAgents.RunOne | agent_JH.py:551-597 | one node on the object, as `RunNode` |
| Agent.SearchAgents.Run | agent_JH.py:551-597 | the driver loop on the object visits the nodes of `RunFrom` and ends in its state |
| Transcript.Leftmost | 2_filenameparsing.py:27 | `re.search`: the leftmost position at which the pattern matches |
| Transcript.RunIsMaximal | 0_fin.py:42 | a greedy run stops only at the end or at a character outside the class |
| Transcript.LeftmostNoneIff | 2_filenameparsing.py:27-29 | the search finds nothing iff nothing matches anywhere |
| Transcript.LeftmostAt | 2_filenameparsing.py:27 | a match with none before it is the one `re.search` reports |
| Transcript.DigitsThen | 2_filenameparsing.py:12 | a match is a non-empty run of digits, ending inside the string |
| Transcript.FieldsAt | 2_filenameparsing.py:12 | a match after the title holds a non-empty all-digit session id and an 8-digit date |
| Transcript.FilenameAt | 0_fin.py:42 | a match of the whole pattern at one index holds a non-empty all-digit session id and an 8-digit date |
| Transcript.ParseFilename | 2_filenameparsing.py:25-45 | no match iff the pattern matches nowhere; a match gives integer numbers, the 8-digit date string, `본회의` and the file name echoed; a non-calendar date is an error |
| Transcript.NoTitleNoMatch | 0_fin.py:52-55 | a name without `국회본회의` gives no match (`{}`) |
| Transcript.FieldsIn | 2_filenameparsing.py:12 | four digit fields, each closed by its separator, then eight digits and `.json`, are read field by field |
| Transcript.ParseFileName | 2_filenameparsing.py:25-45 | a file named by the scheme parses back to its fields |
| Transcript.WorkedFilename | 2_filenameparsing.py:95-100 | `국회본회의 회의록_052588_제21대_제400회_제14차_20221208.json` parses to assembly 21, session 400, meeting 14, 2022-12-08 |
| Transcript.WorkedDate | 2_filenameparsing.py:95-100 | `20221208` reads as the calendar date 2022-12-08 |
| Speakers.TitleName | 2_filenameparsing.py:16-17 | no name iff the title pattern matches at no position; a name found is the match at some position |
| Speakers.TitleNameNoneIff | 0_fin.py:44-45 | no match iff the title followed by spaces and a syllable occurs nowhere |
| Speakers.ViceChairImpliesChair | 2_filenameparsing.py:16-17 | wherever `부의장\s+name` matches, `의장\s+name` matches one character later with the same name |
| Speakers.FirstHit | 2_filenameparsing.py:59-61 | the first table entry whose pattern matches, with its match |
| Speakers.FirstHitAt | 0_fin.py:67-69 | an earlier matching entry decides |
| Speakers.PipelineFields | 0_fin.py:69-84 | chair titles set only the name; committee patterns the committee (empty when absent), name and position; a member name and position; a minister only the type |
| Speakers.ParseSpeaker | 0_fin.py:65-85 | the loop with `break` returns `PipelineSpeaker`: type `기타` and empty fields when nothing matches |
| Speakers.PipelineSpeaker | 0_fin.py:65-85 | the fields of the first matching entry of the six-entry table, or type `기타` with empty fields |
| Speakers.Party | 2_filenameparsing.py:83-85 | no party iff none of the five names occurs; a party found is one of them and occurs in the text |
| Speakers.PartyNoneIff | 2_filenameparsing.py:83-85 | no party iff none of the five names occurs |
| Speakers.PartyPrefersFullName | 2_filenameparsing.py:83 | where `더불어민주당` is leftmost, the `민주당` inside it is never reported |
| Speakers.StandaloneFields | 2_filenameparsing.py:62-85 | as the pipeline, but chair titles also set the position and a member also gets the party named in the text |
| Speakers.ParseSpeakerLine | 2_filenameparsing.py:47-89 | the loop returns `StandaloneSpeaker`, with `original_text` echoed and `기타` by default |
| Speakers.StandaloneSpeaker | 2_filenameparsing.py:47-89 | the fields of the first matching entry of the seven-entry table, with the text echoed, or type `기타` |
| Speakers.TypeNameInjective | 2_filenameparsing.py:15-23 | distinct patterns carry distinct speaker types |
| Speakers.ChairComesFirst | 2_filenameparsing.py:16-17 | a chair title anywhere makes the speaker `의장` in both parsers |
| Speakers.NeverViceChair | 0_fin.py:44-45 | the `부의장` entry never decides in the pipeline |
| Speakers.NeverViceChairLine | 2_filenameparsing.py:16-17 | the `부의장` entry never decides in the stand-alone parser |
| Speakers.NamelessMatches | 0_fin.py:49 | a minister match sets the type and nothing else |
| Speakers.NamelessMatchesLine | 2_filenameparsing.py:21-22 | a minister or vote-word match sets the type and leaves name and position empty |
| Speakers.VoteWordsLast | 2_filenameparsing.py:22 | the vote words decide only when none of the six speaker patterns matches |
| Statements.ContentType | 0_fin.py:88-95 | the label is always one of the seven content types |
| Statements.ContentTypeIsFirstRule | 0_fin.py:88-95 | the classifier is the first-rule-wins reading of its rule table |
| Statements.BillWordsFirst | 0_fin.py:89 | content containing `의결` is `법안심의`, whatever vote or budget words it also has |
| Statements.ExtractBillNames | 0_fin.py:97-102 | each matched bill name exactly once, in some order |
| Statements.CountAt | 0_fin.py:106-107 | a count is read only where the word occurs, and ends inside the string |
| Statements.YesAbstainAt | 0_fin.py:106 | a yes/abstain match starts at an occurrence of `찬성` |
| Statements.VoteInfo | 0_fin.py:104-110 | yes and abstain are set together only when both match; no is set independently; the counts are those of the leftmost match of each pattern |
| Statements.VoteRecord | 0_fin.py:104-110 | yes and abstain both or neither, from the first search; no from the second |
| Statements.VoteWordsNeeded | 0_fin.py:104-110 | without `찬성` there are no yes or abstain counts, without `반대` no no-count; no match gives the empty record |
| Statements.StatementId | 0_fin.py:128 | the id starts with the session id and `_`, and has at least three characters after it |
| Statements.StatementIdReadsBack | 0_fin.py:128 | the index is read back from the id, so ids of one transcript never collide |
| Text.DigitsValueOfNatToString | 0_fin.py:128 | the digits printed for a number read back as that number |
| Statements.Summary | 0_fin.py:135 | the first 200 characters plus `...` when the content is longer, else the content |
| Statements.StatementIdInjective | 0_fin.py:128 | two entries of one transcript never share a statement id |
| Statements.StatementOf | 0_fin.py:126-144 | the record of entry `i` has order `i`, the id `StatementId(session_id, i)`, the entry's content and the bill names given |
| Statements.BuiltSkip | 0_fin.py:124-125 | an entry whose stripped content is empty adds nothing |
| Text.StripEmptyIff | 0_fin.py:124-125 | a stripped content is empty iff it is all whitespace |
| Statements.BuiltKeep | 0_fin.py:126-145 | any other entry adds its record, with the bill names of its content |
| Statements.ParseParliamentJson | 0_fin.py:113-147 | a name that does not match gives `[]` before any read; a non-calendar date is an error; otherwise the statements of the kept entries |
| Statements.BuildStatements | 0_fin.py:122-145 | the loop returns the statements of the kept entries, in order, with the raw index as order |
| Statements.BuiltIdsDistinct | 0_fin.py:123-140 | statement ids are distinct and orders strictly increase, with gaps where entries were skipped |
| Statements.IsoDateReadsBack | 0_fin.py:170 | a calendar date is written in ten characters and read back unchanged |
| Statements.FormatTextShape | 0_fin.py:169-170 | the text begins with the date and ends with the content |
| Statements.Texts | 0_fin.py:158 | one text per item, in order |
| Statements.BatchVectors | 0_fin.py:159-166 | a batch adds the response's vectors, or one missing vector per text on failure |
| Statements.Embed | 0_fin.py:155-167 | the batch loop returns the vectors of consecutive batches, failed ones padded |
| Common.BatchesPartition | 0_fin.py:157-158 | `range(0, len, batch_size)` slices cover the input exactly, in order, each non-empty, full but the last |
| Statements.EmbedLength | 0_fin.py:155-167 | with one vector per text, exactly one entry per statement, failed batches included |
| Statements.EmbedAllFailed | 0_fin.py:164-166 | a service that always fails gives one missing vector per statement |
| EmbeddingDocs.SpeakerSegment | 3_embeddingArch.py:45-52 | starts with the name; ends with ` [party]`, else ` (committee)`, else ` position`, each only when non-empty; the bare name when all are empty |
| EmbeddingDocs.StatementParts | 3_embeddingArch.py:37-60 | meeting, date, speaker; `내용구분: ` only for a non-empty type; `관련법안: ` joined with `, ` only for a non-empty bill list, last |
| EmbeddingDocs.StatementTextShape | 3_embeddingArch.py:62-66 | the text starts with the meeting part and ends with `\n\n발언내용: ` + content |
| EmbeddingDocs.CreateStatementEmbeddings | 3_embeddingArch.py:68-97 | consecutive batches of contextual texts, failures padded; one entry per statement when the service answers one vector per text |
| EmbeddingDocs.Summaries | 3_embeddingArch.py:112 | one summary per statement; `ProfileBounds` states their length and that each is a prefix |
| EmbeddingDocs.BillMentionsIff | 3_embeddingArch.py:113 | a bill is mentioned iff some statement relates to it |
| EmbeddingDocs.ContentTypesIff | 3_embeddingArch.py:114 | a type is listed iff some statement has it |
| EmbeddingDocs.ProfileParts | 3_embeddingArch.py:107-114 | the loop returns the cut contents and the two sets |
| EmbeddingDocs.ProfileBounds | 3_embeddingArch.py:121-124 | at most 5 summaries, each at most 200 characters and a prefix of its content; at most 10 bills |
| EmbeddingDocs.FirstVector | 3_embeddingArch.py:128-136 | the first vector of the response, or none when the request failed or the response is empty |
| EmbeddingDocs.SpeakerProfile | 3_embeddingArch.py:99-136 | the profile text of the first statement's speaker, the count and the two sets in some order, and its vector or none |
| EmbeddingDocs.IndexParts | 2_embedding_index.py:132-146 | the head parts; `발언자: name` (with ` (position)` only when truthy) only when the name is truthy; `발언순서` only when the order is non-zero |
| EmbeddingDocs.BuilderSpeakerKeepsParentheses | embedding_index_create_JH.py:124-125 | `strip()` changes nothing, so a missing position leaves ` ()` |
| EmbeddingDocs.BuilderParts | embedding_index_create_JH.py:118-128 | the head parts, the speaker part when named, and `발언순서` only when the order is non-zero |
| EmbeddingDocs.RowTextShape | embedding_index_create_JH.py:128 | both builders' texts start with the row's numbers and end with `\n\n발언내용: ` + summary |
| EmbeddingDocs.MakeDocument | 2_embedding_index.py:158-171 | `document_id` is `minutes_id + "_" + speech_order`, and content and embedding are those given |
| EmbeddingDocs.ResponseDocuments | 2_embedding_index.py:155-176 | a failed request gives nothing; otherwise one document per row while the response has a vector for it |
| EmbeddingDocs.CreateDocuments | embedding_index_create_JH.py:130-157 | both loops return the documents of consecutive batches, failed batches skipped |
| EmbeddingDocs.IndexDocumentsAppend | 2_embedding_index.py:151-177 | the documents of two runs of batches are those of each, in order |
| EmbeddingDocs.FailedBatchSkipped | 2_embedding_index.py:174-176 | a failed batch contributes nothing and the batches around it stay in order |
| EmbeddingDocs.IndexDocumentsFromRows | 2_embedding_index.py:151-177 | never more documents than rows, each with a row's id and text |
| EmbeddingDocs.IndexDocumentsComplete | embedding_index_create_JH.py:137-152 | with a service that always answers in full, exactly one document per row, in row order |
| EmbeddingDocs.RowsDocuments | 2_embedding_index.py:148-177 | the three facts above for the batches of a table |
| EmbeddingDocs.FilterRow | embedding_index_create_JH.py:105-109 | the keys kept are exactly the row's keys that are record fields, with their values |
| EmbeddingDocs.FilterRowFixes | embedding_index_create_JH.py:105-109 | a row of record fields passes unchanged, and filtering twice is filtering once |
| EmbeddingDocs.ReportOf | embedding_index_create_JH.py:216-225 | a failed upload is reported as failed; otherwise the count of succeeded results |
| EmbeddingDocs.UploadDocuments | 2_embedding_index.py:224-232 | consecutive batches are all sent, a failure not stopping the rest, each with its report |
| EmbeddingDocs.UploadCoversDocuments | embedding_index_create_JH.py:212-225 | the batches cover the documents in order with at most `batch_size` each; a success count never exceeds the results, nor the batch when there is one result per document |

## Left out

- The external services are parameters, not modelled: Azure OpenAI embeddings and chat, Azure AI Search, Tavily and the LangGraph runtime. Prompt texts and `processing_info` are left out; the model records only whether the generator is called.
- The date formatters `_safe_date_format`, `strftime` and `isoformat` are `Date -> string` parameters. So is the UTC normalisation of `minutes_date` in `load_assembly_minutes`.
- The `lru_cache` on the date formatter is left out.
- The time of day of datetimes is left out; a date is year, month and day.
- The `ThreadPoolExecutor` fan-out is modelled as two sequential calls; the merge depends only on the two lists.
- Printing, timing, `input()`, environment loading and file reading are left out. So are JSON loading with non-string values and the SQL loading through pyodbc and pandas.
- `os.path.basename` is left out: the model takes the file name.
- `np.array` conversion is left out: vectors are `seq<real>`.
- The index schemas (`create_index_schema`, `create_or_update_index`) are configuration, not logic.
- The four speaker patterns with optional groups and `.*`, and the bill-name pattern, are oracle parameters (`Matcher`). Their matching is not modelled; the first-match and field-filling logic is.
- `\d` and `int()` are ASCII-only here. Python also accepts other Unicode decimal digits.
- Upper-casing beyond ASCII in `lower()` is left out. It cannot change a score, since no keyword holds a letter.
- The unknown-`source_type` branch of the context builders is left out. The document constructors cannot produce one.
- A negative `k` is left out: `k` is a `nat`.
- The agent's `messages` channel is modelled with its declared reducer (`lambda x, y: x + y`), so the list doubles at every node (`Agent.RunDoublesMessages`); the message objects are reduced to their kind and text.
- The outer `except` blocks around whole methods are left out where the model's calls cannot raise. Where an oracle can fail, the failure is modelled.
- Statements.ParseParliamentJson: a date `strptime` rejects raises in the source; the model returns it as an error value instead.
- EmbeddingDocs.SpeakerProfile: requires at least one statement; the source raises `IndexError` on an empty list at `speaker_statements[0]`.
- EmbeddingDocs.SpeakerProfile: the single profile text is sent as the one-element list `[text]`; the service accepts a bare string there.
- NaiveRag.VoiceSummary: the three speakers named come from a set's iteration order, which is left open. Sorted dates are read only at their ends (least and greatest).
- The interactive loops' prompts and help texts are left out, beyond the command prefixes.
- `test_search_strategies`, `main()` functions, 3_searchtest.py, 4. searchtest.py, 5. RAGtest.py, 5-1. RAG-test.py, 1_ConnectionTest.py, a_DBConnection_Test.py and rag_service.py are not part of this model.
