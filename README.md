# mind-spiral, modelled in Dafny

mind-spiral builds a layered model of how one person thinks, out of what the person said,
heard, read and decided. Each layer is derived from the ones below it:

- **Signals** are single observations, ingested into a store that drops repeated ids.
- **Convictions** are beliefs. They come from clusters of signals, are scored on five
  kinds of resonance evidence, and get a strength and a level.
- **Reasoning traces** are decision episodes extracted from groups of output signals.
- **Context frames** are groups of traces from the same situation, with statistics on the
  convictions they activate and the styles they use.
- **Identity cores** are convictions that are primary in nearly every active frame.

Maintenance jobs keep the layers consistent:

- the deduper merges duplicate convictions and rewrites references to merged-away ids; the source rewrites one hop only (engine/conviction_deduper.py:321), and the model's merge is repaired so that chains of merges are followed to the end (see Findings);
- the contradiction scanner records symmetric tensions;
- the decision tracker feeds decision outcomes back into conviction strength;
- the daily and weekly batch jobs assemble digests.

The read path is the query engine. It matches a question to a frame (reflex keywords
first, then the frame index), activates convictions, retrieves traces (time-spread for
temporal questions) and backtracks to raw signal text. It also flags low confidence and
keeps a per-owner cache.

Also modelled:

- the explorer's aggregations (explore, evolution, blind spots, connections);
- token-to-role resolution in `engine/auth.py`;
- the atom-to-signal mapping in `migrate_atoms.py`.

## Layout

There is one Dafny module per source file. Every external service is an input:

- embeddings, similarities and cluster labels are given values;
- vector searches are given rankings and nearest distances;
- model replies are given strings;
- JSON decoding is a given function;
- ids and clocks are given.

Files:

- `wrappers.dfy`: `Option` and `Result`.
- `seqs.dfy`: Python list idioms (filters, order-keeping dedupe, stable sort, `Counter.most_common`, grouping).
- `strings.dfy`: `str` methods (strip, lower, split, replace, `03d` padding, fence stripping).
- `calendar.dfy`: "YYYY-MM-DD" dates as day numbers.
- `models.dfy`: the record types and the bounds their validators state (`engine/models.py`).
- `conviction_detector.dfy`, `conviction_deduper.dfy`, `contradiction_alert.dfy`, `frame_clusterer.dfy`,
  `identity_scanner.dfy`, `trace_extractor.dfy`, `query_engine.dfy`, `explorer.dfy`, `decision_tracker.dfy`,
  `signal_store.dfy`, `daily_batch.dfy`, `migrate_atoms.dfy`, `auth.dfy`: the engine, file by file.

State held in objects is modelled as classes: `QueryEngine.QueryCache` (the module-level
`_cache`), `Auth.TokenCache` (`_tokens`) and `SignalStore.Store`. Loops the source runs
step by step are methods with loop invariants. Each loop is proved equal to a function,
and the source's promises are proved as lemmas about that function.

## Model

| member | source | states |
|---|---|---|
| `Auth.Listed` | engine/auth.py:25-34 | the cleaned entries a token list contributes are never empty (empty entries after `strip` are skipped) |
| `Auth.AssignedSnoc` | engine/auth.py:25-28 | one more list entry assigns its cleaned token the role, unless it is empty |
| `Auth.AssignedFacts` | engine/auth.py:25-34 | assigning a list adds exactly its non-empty cleaned tokens with that role, overriding earlier roles, and leaves every other token's role alone |
| `Auth.TokenMapFacts` | engine/auth.py:16-36 | a token is mapped iff it is the non-empty owner token or a listed agent or viewer token; viewer beats agent beats owner; no token maps to public |
| `Auth.AssignAll` | engine/auth.py:25-28 | the split-and-strip loop builds exactly the assigned map |
| `Auth.LoadTokens` | engine/auth.py:16-36 | `_load_tokens` returns the token map of the environment |
| `Auth.RoleOf` | engine/auth.py:63 | a known token gets its mapped role, any other token gets public |
| `Auth.PublicIff` | engine/auth.py:55-63 | a request resolves to public iff it has no token or a token the map does not know |
| `Auth.RequireOwner` | engine/auth.py:66-70 | succeeds iff the role is owner, returning it; otherwise a 403 |
| `Auth.RequireAuthenticated` | engine/auth.py:73-77 | fails with 401 iff the role is public; otherwise returns the role |
| `Auth.OwnerIsAuthenticated` | engine/auth.py:66-77 | a role the owner guard lets through also passes the authentication guard |
| `Auth.TokenCache.GetTokens` | engine/auth.py:39-46 | the first call loads and caches the map of the current environment; later calls return the cached map unchanged, whatever the environment now says |
| `Auth.TokenCache.Reload` | engine/auth.py:49-52 | forgets the cached map |
| `Auth.TokenCache.ResolveRole` | engine/auth.py:55-63 | no token: public without touching the cache; a token: its role in the cached map, loading it on first use |
| `Auth.TokenCache.constructor` | engine/auth.py:39 | the module starts with no cached token map |
| `Models.AuthorityFromName` | engine/models.py:72 | a name is accepted as an authority only if it is that authority's literal |
| `Models.AuthorityNameRoundTrip` | engine/models.py:72 | every authority literal is read back as itself |
| `Models.ContextFromName` | engine/models.py:27-33 | a name is accepted as a source context only if it is one of the 21 literals, and then names it |
| `Models.ContextNameRoundTrip` | engine/models.py:27-33 | every one of the 21 context literals is read back as its own context |
| `Models.CandidateOf1` | engine/models.py:28 | the first four context literals are read back as themselves |
| `Models.CandidateOf2` | engine/models.py:29 | the next four context literals are read back as themselves |
| `Models.CandidateOf3` | engine/models.py:30 | the next four context literals are read back as themselves |
| `Models.CandidateOf4` | engine/models.py:31 | the next four context literals are read back as themselves |
| `Models.CandidateOf5` | engine/models.py:32-33 | the last five context literals are read back as themselves |
| `Models.RoleFromName` | engine/models.py:173 | a name is accepted as an activation role only if it is that role's literal |
| `Models.RoleNameRoundTrip` | engine/models.py:173 | every activation role literal is read back as itself |
| `Models.StyleFromName` | engine/models.py:189-192 | a name is accepted as a reasoning style only if it is that style's literal |
| `Models.StyleNameRoundTrip` | engine/models.py:189-192 | every reasoning style literal is read back as itself |
| `Models.KeyedBy` | engine/explorer.py:105 | the id-keyed dict holds exactly the ids of the items, each mapped to an item with that id (a later item replaces an earlier one) |
| `Models.KeyedByIn` | engine/explorer.py:105 | every value of the id-keyed dict is one of the items |
| `Models.DictValues` | engine/query_engine.py:286 | the dict's values in insertion order: one per distinct id, in order of first occurrence, each the dict's entry for that id |
| `Models.DictValuesIn` | engine/query_engine.py:286 | every value listed is one of the items |
| `SignalStore.Admitted` | engine/signal_store.py:61-67 | what an ingest writes has pairwise distinct ids and is no longer than the batch |
| `SignalStore.AdmittedFrom` | engine/signal_store.py:61-67 | everything written comes from the batch and has an id not already stored |
| `SignalStore.AdmittedCovers` | engine/signal_store.py:61-67 | every id of the batch is afterwards either already stored or written |
| `SignalStore.Admit` | engine/signal_store.py:62-67 | the `seen`-set loop computes exactly the admitted signals |
| `SignalStore.Positions` | engine/signal_store.py:64-67 | one batch position per admitted signal, each inside the batch |
| `SignalStore.PositionsPick` | engine/signal_store.py:64-67 | the admitted signal at each position is the batch element there |
| `SignalStore.PositionsIncrease` | engine/signal_store.py:64-67 | the positions strictly increase: batch order is kept |
| `SignalStore.PositionsFirst` | engine/signal_store.py:64-67 | each admitted element is the first of the batch with its id |
| `SignalStore.PositionsComplete` | engine/signal_store.py:64-67 | every first occurrence of an unknown id is admitted |
| `SignalStore.AdmittedPositions` | engine/signal_store.py:61-67 | dedupe keeps exactly the first occurrence of every unknown id, in batch order |
| `SignalStore.AppendKeepsDistinct` | engine/signal_store.py:71-74 | appending admitted signals to a file of distinct ids keeps the ids distinct |
| `SignalStore.IngestAppends` | engine/signal_store.py:47-102 | ingest keeps every earlier record in place, adds only batch elements with new ids, and afterwards every id of the batch is stored |
| `SignalStore.IngestIdempotent` | engine/signal_store.py:49-69 | an empty batch, or the same batch ingested a second time, writes nothing |
| `SignalStore.AdmittedNone` | engine/signal_store.py:68-69 | a batch whose ids are all known writes nothing |
| `SignalStore.MetaOf` | engine/signal_store.py:79-89 | the collection metadata carries the signal's date, context and direction, and its authority name or the empty string |
| `SignalStore.EntriesOf` | engine/signal_store.py:77-89 | one collection entry per written signal, in order |
| `SignalStore.WhereOf` | engine/signal_store.py:113-120 | no filter is built exactly when neither a direction nor a date range is given |
| `SignalStore.AdmitsIff` | engine/signal_store.py:113-120 | the filter admits an entry iff its direction matches a given direction and its date lies within a given range at both ends |
| `SignalStore.RequestOf` | engine/signal_store.py:122-138 | with text, a similarity search for `n_results`; without, a listing limited to `n_results`; both carry the filter |
| `SignalStore.LoadedIff` | engine/signal_store.py:142-154 | a signal is loaded iff it is stored and its id was asked for |
| `SignalStore.QueryFacts` | engine/signal_store.py:104-154 | a query returns stored signals only, each with an id the collection answered, none twice, so no more than the answer's ids |
| `SignalStore.QueryFiltered` | engine/signal_store.py:113-140 | when the collection honours the filter, every returned signal satisfies it |
| `SignalStore.DirectionsOf` | engine/signal_store.py:173 | the direction of each stored signal, in order |
| `SignalStore.ModalitiesOf` | engine/signal_store.py:174 | the modality of each stored signal, in order |
| `SignalStore.AuthoritiesOf` | engine/signal_store.py:175 | each signal's authority name, or "unknown" without one |
| `SignalStore.KindsOf` | engine/signal_store.py:176 | the content type of each stored signal, in order |
| `SignalStore.Earliest` | engine/signal_store.py:193 | `min(dates)`: a date that occurs, with no stored date earlier |
| `SignalStore.Latest` | engine/signal_store.py:193 | `max(dates)`: a date that occurs, with no stored date later |
| `SignalStore.TopTopics` | engine/signal_store.py:180-184 | at most twenty topics, each listed by some signal with its number of mentions, most mentioned first |
| `SignalStore.TopTopicsListed` | engine/signal_store.py:184 | every top topic is mentioned by some stored signal |
| `SignalStore.TopicsIff` | engine/signal_store.py:180-183 | a topic is among all mentions iff some signal lists it |
| `SignalStore.StatsTotal` | engine/signal_store.py:167-196 | stats is the bare zero total exactly for an empty store, otherwise the signal count and the collection count |
| `SignalStore.StatsCounts` | engine/signal_store.py:173-177 | each per-dimension count tallies that dimension over the stored signals |
| `SignalStore.CounterTallies` | engine/signal_store.py:173-177 | `Counter(s)` holds exactly the values of `s`, each with its number of occurrences |
| `SignalStore.Store.StoredIds` | engine/signal_store.py:52-59 | the ids read back from the file are exactly those of the stored signals |
| `SignalStore.Store.Ingest` | engine/signal_store.py:47-102 | the file and the collection each grow by exactly the admitted signals, the count returned is their number, and the store stays a consistent mirror |
| `SignalStore.Store.LoadByIds` | engine/signal_store.py:142-154 | the stored signals whose id was asked for, in file order |
| `SignalStore.Store.Query` | engine/signal_store.py:104-140 | builds the request, lets the collection answer it, and loads the answered signals |
| `SignalStore.Store.AllTopics` | engine/signal_store.py:180-183 | every topic mention of the stored signals, in file order |
| `SignalStore.Store.Statistics` | engine/signal_store.py:167-196 | returns the statistics of the stored signals and the collection count |
| `SignalStore.Store.constructor` | engine/signal_store.py:16-31 | a store for one owner over the file and the collection as they are, valid from the start when the two copies agree and no id repeats |
| `ContradictionAlert.ClassifyTension` | engine/contradiction_alert.py:32-34 | the reply is accepted iff its trimmed lower-cased form is one of the four relationships, and then that form is returned |
| `ContradictionAlert.ClassifyIdempotent` | engine/contradiction_alert.py:32-34 | an accepted relationship is accepted again as itself |
| `ContradictionAlert.AddTension` | engine/contradiction_alert.py:101-111 | only the tensions change; the old tensions are kept; afterwards the conviction opposes `other`; a contradiction is appended exactly when no tension opposed `other` before |
| `ContradictionAlert.ActivePositions` | engine/contradiction_alert.py:47 | exactly the positions of the active convictions, in list order |
| `ContradictionAlert.ScanAll` | engine/contradiction_alert.py:64-111 | visiting any list of pairs keeps the number of convictions |
| `ContradictionAlert.ScanEnv` | engine/contradiction_alert.py:45-58 | the scan's inputs (active positions, similarities, classifier replies) are well formed for any conviction list |
| `ContradictionAlert.Scan` | engine/contradiction_alert.py:37-116 | `scan` returns the alerts and the saved list of the scan specification |
| `ContradictionAlert.ScanTriangle` | engine/contradiction_alert.py:64-111 | the double loop over `i < j` computes the scan of all upper-triangle pairs |
| `ContradictionAlert.ScanRow` | engine/contradiction_alert.py:65-111 | the inner loop advances the scan from row `i` to row `i + 1` |
| `ContradictionAlert.VisitPair` | engine/contradiction_alert.py:68-111 | one inner-loop body: skip a checked pair or one outside `[0.7, 0.95]` or unclassified; else alert, and for a contradiction record tensions both ways |
| `ContradictionAlert.FewActiveNothing` | engine/contradiction_alert.py:49-50 | fewer than two active convictions: nothing returned and nothing saved |
| `ContradictionAlert.VisitGrows` | engine/contradiction_alert.py:68-89 | one visit checks its id pair and adds at most one alert, of that pair, only if the pair was unchecked |
| `ContradictionAlert.AlertsSound` | engine/contradiction_alert.py:73-89 | every alert comes from an in-band pair of active convictions the classifier named, with their ids, statements and similarity |
| `ContradictionAlert.AlertsUnique` | engine/contradiction_alert.py:68-71 | every alert's ids are checked, and no two alerts name the same id pair |
| `ContradictionAlert.AlertsGrow` | engine/contradiction_alert.py:82 | the alert list only grows as the scan proceeds |
| `ContradictionAlert.CheckedIsVisited` | engine/contradiction_alert.py:68-71 | `checked` holds exactly the id pairs of the pairs visited |
| `ContradictionAlert.PairUnchecked` | engine/contradiction_alert.py:68-71 | with distinct ids, no pair is already checked when it is reached |
| `ContradictionAlert.AlertsComplete` | engine/contradiction_alert.py:64-89 | with distinct active ids, every in-band pair the classifier names yields an alert with both ids and the relationship |
| `ContradictionAlert.AlertAt` | engine/contradiction_alert.py:64-89 | a listed pair whose ids occur in no other listed pair yields its alert |
| `ContradictionAlert.AddTensionKeeps` | engine/contradiction_alert.py:106-111 | appending a tension keeps every opposition already recorded |
| `ContradictionAlert.ContradictKeeps` | engine/contradiction_alert.py:92-111 | recording a contradiction keeps every tension already there |
| `ContradictionAlert.VisitShaped` | engine/contradiction_alert.py:92-111 | a visit changes nothing but tensions, and inactive convictions not at all |
| `ContradictionAlert.VisitOnlyContradictions` | engine/contradiction_alert.py:92-111 | every tension a visit appends is a contradiction backed by an alert |
| `ContradictionAlert.VisitSymmetric` | engine/contradiction_alert.py:92-111 | after a visit, each contradiction alert has its tension on both sides |
| `ContradictionAlert.VisitConvs` | engine/contradiction_alert.py:91-111 | a visit leaves the convictions alone or records exactly that pair's contradiction |
| `ContradictionAlert.ContradictRecords` | engine/contradiction_alert.py:93-111 | recording a contradiction makes each side oppose the other |
| `ContradictionAlert.ScanWrites` | engine/contradiction_alert.py:64-111 | over any pair list: only tensions are appended, only contradictions, and each contradiction alert is mutual |
| `ContradictionAlert.ScanFacts` | engine/contradiction_alert.py:37-116 | a scan that saves keeps every conviction and appends only contradiction tensions backed by alerts; each alert comes from an in-band classified pair; contradiction alerts are mutual; no id pair is alerted twice |
| `ContradictionAlert.RunFacts` | engine/contradiction_alert.py:61-111 | the same facts for the full upper-triangle scan |
| `ConvictionDeduper.MergeList` | engine/conviction_deduper.py:21-24 | missing iff both lists are missing or empty, otherwise the concatenation of both lengths |
| `ConvictionDeduper.MergeEvidenceKinds` | engine/conviction_deduper.py:19-42 | each kind of resonance evidence is present in the merge iff it is present on either side, so merging keeps every kind of both |
| `ConvictionDeduper.ScanValid` | engine/conviction_deduper.py:66-72 | every kept candidate has `i < j`, its similarity read off the matrix and strictly above the threshold |
| `ConvictionDeduper.ScanSeen` | engine/conviction_deduper.py:65-71 | `seen` holds exactly the unordered id pairs of the kept candidates |
| `ConvictionDeduper.ScanDistinct` | engine/conviction_deduper.py:69-72 | no two kept candidates name the same unordered id pair |
| `ConvictionDeduper.ScanComplete` | engine/conviction_deduper.py:66-71 | every visited pair above the threshold has its id pair in `seen` |
| `ConvictionDeduper.DuplicatePairsValid` | engine/conviction_deduper.py:45-76 | valid candidates above the threshold, no id pair twice, sorted from the most similar down; none for fewer than two convictions |
| `ConvictionDeduper.ScanKeeps` | engine/conviction_deduper.py:66-72 | a visited pair above the threshold is represented by a kept candidate with the same ids |
| `ConvictionDeduper.RepresentedPermuted` | engine/conviction_deduper.py:75 | sorting the candidates keeps every id pair represented |
| `ConvictionDeduper.DuplicatePairsComplete` | engine/conviction_deduper.py:45-76 | every pair of positions above the threshold is represented by a candidate with the same two ids |
| `ConvictionDeduper.PermutedKeysDistinct` | engine/conviction_deduper.py:75 | sorting keeps the id pairs distinct |
| `ConvictionDeduper.FindDuplicatePairs` | engine/conviction_deduper.py:45-76 | the nested loops and the sort compute the candidate list |
| `ConvictionDeduper.ScanTriangle` | engine/conviction_deduper.py:66-72 | the outer loop scans every row of the upper triangle |
| `ConvictionDeduper.ScanRow` | engine/conviction_deduper.py:67-72 | the inner loop scans row `i` after the rows before it |
| `ConvictionDeduper.Verdicts` | engine/conviction_deduper.py:100-101 | one verdict per reply |
| `ConvictionDeduper.Answers` | engine/conviction_deduper.py:101 | one YES-verdict per reply |
| `ConvictionDeduper.Zipped` | engine/conviction_deduper.py:100 | `zip` stops at the shorter of the pairs and the replies |
| `ConvictionDeduper.ConfirmedExactly` | engine/conviction_deduper.py:99-104 | exactly the zipped pairs answered YES are confirmed, in order; all YES keeps all, no YES keeps none |
| `ConvictionDeduper.ConfirmedIff` | engine/conviction_deduper.py:79-104 | a pair is confirmed iff it is among the first `min(pairs, replies)` and its reply, trimmed and upper-cased, starts with YES |
| `ConvictionDeduper.ConfirmedIffBy` | engine/conviction_deduper.py:99-104 | the same for any verdict on the replies |
| `ConvictionDeduper.ReadVerdicts` | engine/conviction_deduper.py:100-101 | the loop reads each reply's verdict |
| `ConvictionDeduper.ConfirmDuplicates` | engine/conviction_deduper.py:79-104 | `_llm_confirm_duplicates` keeps the pairs answered YES |
| `ConvictionDeduper.KeepAnswered` | engine/conviction_deduper.py:99-104 | the loop keeps the zipped pairs answered YES |
| `ConvictionDeduper.ChoosePrimary` | engine/conviction_deduper.py:107-111 | the primary has the higher score, the first one on a tie |
| `ConvictionDeduper.MergeIntoFacts` | engine/conviction_deduper.py:295-319 | the merged primary keeps its id, statement, strength and lifecycle; its domains are the union without repeats; its variants are its own, the secondary's, then the secondary's statement; its tensions are its own then the secondary's not opposing it |
| `ConvictionDeduper.MergeAllAsWritten` | engine/conviction_deduper.py:288-322 | the merge loop as written keeps the number of convictions |
| `ConvictionDeduper.MergeAll` | engine/conviction_deduper.py:288-322 | the repaired merge loop keeps the number of convictions |
| `ConvictionDeduper.MergeAllRemovedAreKeys` | engine/conviction_deduper.py:321-322 | the merged-away ids are exactly the keys of `id_map`, so `merged` is its size |
| `ConvictionDeduper.MergeAllKeepsIds` | engine/conviction_deduper.py:288-319 | merging never changes which id sits at which position |
| `ConvictionDeduper.MergeAllMapsListIds` | engine/conviction_deduper.py:321 | `id_map` maps only ids of the list to ids of the list |
| `ConvictionDeduper.RepointValues` | engine/conviction_deduper.py:321 | re-pointing then adding the new entry keeps the keys plus the new one; each value is the old one or the new target |
| `ConvictionDeduper.RepointNoChains` | engine/conviction_deduper.py:321 | re-pointing before adding `secondary -> primary` keeps a one-hop map one hop |
| `ConvictionDeduper.MergeAllNoChains` | engine/conviction_deduper.py:288-322 | with the repair, no value of `id_map` is itself a key: every target survives |
| `ConvictionDeduper.MergeConfirmed` | engine/conviction_deduper.py:285-330 | the merge loop of `dedupe` computes the repaired merge of the confirmed pairs |
| `ConvictionDeduper.SurvivorsAreUnremoved` | engine/conviction_deduper.py:332-342 | no survivor was merged away, every unremoved conviction survives, and the list does not grow |
| `ConvictionDeduper.KeepSurvivors` | engine/conviction_deduper.py:333-342 | the filter loop keeps the survivors with their tensions redirected |
| `ConvictionDeduper.RedirectTraces` | engine/conviction_deduper.py:118-154 | one rewritten trace per trace, and no more updated than there are traces |
| `ConvictionDeduper.RedirectTraceFile` | engine/conviction_deduper.py:118-154 | the traces loop computes the rewritten traces and the count |
| `ConvictionDeduper.RedirectFrames` | engine/conviction_deduper.py:156-184 | one rewritten frame per frame, and no more updated than there are frames |
| `ConvictionDeduper.RedirectFrameFile` | engine/conviction_deduper.py:156-184 | the frames loop computes the rewritten frames and the count |
| `ConvictionDeduper.RedirectIdentities` | engine/conviction_deduper.py:186-201 | one rewritten identity per identity, and no more updated than there are |
| `ConvictionDeduper.RedirectIdentityFile` | engine/conviction_deduper.py:193-197 | the identity loop computes the rewritten list and the count |
| `ConvictionDeduper.DropChecked` | engine/conviction_deduper.py:203-223 | kept plus dropped checked pairs are all the pairs |
| `ConvictionDeduper.DropCheckedFile` | engine/conviction_deduper.py:209-218 | the checked-pairs loop computes the kept pairs and the number dropped |
| `ConvictionDeduper.UpdateDownstream` | engine/conviction_deduper.py:114-228 | `_update_downstream_references` rewrites each file that exists and reports its count |
| `ConvictionDeduper.RedirectLeavesMap` | engine/conviction_deduper.py:132-133 | with a one-hop map, a redirected id is never a merged-away id |
| `ConvictionDeduper.RedirectTraceAvoids` | engine/conviction_deduper.py:130-146 | a rewritten trace names no merged-away id, and a trace that named none is unchanged |
| `ConvictionDeduper.RedirectFrameAvoids` | engine/conviction_deduper.py:168-176 | a rewritten frame names no merged-away id, and a frame that named none is unchanged |
| `ConvictionDeduper.RedirectTensionsAvoid` | engine/conviction_deduper.py:338-341 | a survivor's redirected tensions oppose no merged-away id, and its id is kept |
| `ConvictionDeduper.RedirectTracesAvoid` | engine/conviction_deduper.py:118-154 | each trace is rewritten in place, none names a merged-away id, and the count is the number of traces that mentioned one |
| `ConvictionDeduper.RedirectFramesAvoid` | engine/conviction_deduper.py:156-184 | each frame is rewritten in place, none names a merged-away id, and the count is the number of frames that mentioned one |
| `ConvictionDeduper.RedirectIdentitiesAvoid` | engine/conviction_deduper.py:193-197 | each identity is redirected in place and none names a merged-away id |
| `ConvictionDeduper.DropCheckedKeepsOthers` | engine/conviction_deduper.py:207-218 | the kept checked pairs are exactly those naming no merged-away id, in order |
| `ConvictionDeduper.DownstreamClosed` | engine/conviction_deduper.py:114-228 | with a one-hop map, no rewritten file refers to a merged-away id; a file is written iff it existed; each count is the number of records that mentioned one |
| `ConvictionDeduper.ConvictionIds` | engine/conviction_deduper.py:69 | the id of each conviction, in order |
| `ConvictionDeduper.DryDetails` | engine/conviction_deduper.py:272-281 | one dry-run report line per pair shown |
| `ConvictionDeduper.DuplicatePairsInRange` | engine/conviction_deduper.py:66-67 | every candidate names two positions of the list |
| `ConvictionDeduper.ConfirmedIn` | engine/conviction_deduper.py:99-102 | every confirmed pair names two positions of the list |
| `ConvictionDeduper.DryRunReport` | engine/conviction_deduper.py:270-282 | the dry-run loop reports the confirmed pairs, or all candidates when none was confirmed |
| `ConvictionDeduper.ApplyMerges` | engine/conviction_deduper.py:284-354 | merges, keeps the survivors, rewrites the downstream files and reports the merge run (repaired merge, see Findings) |
| `ConvictionDeduper.Dedupe` | engine/conviction_deduper.py:231-354 | `dedupe` returns the report and the files of the dedupe specification (repaired merge, see Findings) |
| `ConvictionDeduper.QuietRunsWriteNothing` | engine/conviction_deduper.py:249-282 | fewer than two convictions, no candidates, a dry run or nothing confirmed: nothing saved, files untouched, nothing merged, empty `id_map` |
| `ConvictionDeduper.MergingRun` | engine/conviction_deduper.py:249-354 | a run that saves had at least two convictions and merged exactly the confirmed candidates (repaired merge, see Findings) |
| `ConvictionDeduper.MergeRunFacts` | engine/conviction_deduper.py:284-354 | `merged` is the size of `id_map`; no saved conviction was merged away; every other conviction is saved; `id_map` maps list ids to list ids (repaired merge, see Findings) |
| `ConvictionDeduper.MergeRunClosed` | engine/conviction_deduper.py:284-354 | `id_map` has no chains, and no saved tension and no downstream trace, frame, identity or checked pair names a merged-away conviction (repaired merge, see Findings) |
| `ConvictionDeduper.SurvivorsTensionsAvoid` | engine/conviction_deduper.py:332-342 | no survivor's tension opposes a merged-away id, given a one-hop map |
| `ConvictionDeduper.ChainFirstMerge` | engine/conviction_deduper.py:288-322 | as written, the first merge of the example: A absorbs B, `id_map` is {B: A} |
| `ConvictionDeduper.ChainedMergeLeavesDanglingReference` | engine/conviction_deduper.py:288-322 | as written, A absorbs B and then C absorbs A: `id_map` is {B: A, A: C}, so B is rewritten to the removed A |
| `ConvictionDeduper.ChainedMergeResolved` | engine/conviction_deduper.py:288-322 | with the repair, the same merges give {B: C, A: C}, and C survives |
| `ConvictionDeduper.ChainSecondMerge` | engine/conviction_deduper.py:288-322 | with the repair, C absorbing A moves B's entry to C |
| `ConvictionDetector.Ids` | engine/conviction_detector.py:57 | the id of each signal, in order |
| `ConvictionDetector.Dates` | engine/conviction_detector.py:48 | the date of each signal, in order |
| `ConvictionDetector.MinOf` | engine/conviction_detector.py:51 | the first of the sorted dates: one that occurs, with none earlier |
| `ConvictionDetector.MaxOf` | engine/conviction_detector.py:51 | the last of the sorted dates: one that occurs, with none later |
| `ConvictionDetector.Contexts` | engine/conviction_detector.py:67 | the context of each signal, in order |
| `ConvictionDetector.EvidenceKinds` | engine/conviction_detector.py:112 | at most five kinds of resonance are counted |
| `ConvictionDetector.ResonanceCountsChecks` | engine/conviction_detector.py:104-120 | the resonance count is the number of checks that found something, and each evidence list is absent exactly when its check found nothing |
| `ConvictionDetector.SpansDaysIff` | engine/conviction_detector.py:46-62 | temporal persistence is found iff the latest and earliest dates are at least seven days apart |
| `ConvictionDetector.DistinctPairInDedup` | engine/conviction_detector.py:48-50 | two different dates make at least two distinct dates |
| `ConvictionDetector.AnyPhraseIn` | engine/conviction_detector.py:133-139 | true iff some blocklisted phrase, lower-cased, occurs in the lower-cased statement |
| `ConvictionDetector.CleanStatementAccepted` | engine/conviction_detector.py:155-161 | an accepted statement is non-empty, not SKIP, free of every blocklisted phrase, and is the reply with spaces and quotes stripped |
| `ConvictionDetector.SkipRejected` | engine/conviction_detector.py:157-158 | a reply that is SKIP in any letter case, with spaces or quotes around it, is rejected |
| `ConvictionDetector.WeightIsDefault` | engine/conviction_detector.py:187-190 | every signal weighs 0.8: no authority literal is a key of the weight table |
| `ConvictionDetector.SumWeightsIsDefault` | engine/conviction_detector.py:190 | the weights of `n` signals sum to `0.8 * n` |
| `ConvictionDetector.AuthorityWeightIsConstant` | engine/conviction_detector.py:185-191 | the authority weight of any non-empty list is 0.8 |
| `ConvictionDetector.LevelOf` | engine/conviction_detector.py:226-233 | core iff the score is at least 0.8, established iff in [0.6, 0.8), developing iff in [0.4, 0.6), emerging below 0.4 |
| `ConvictionDetector.ComputeStrength` | engine/conviction_detector.py:201-239 | score in [0, 1] with its level band and trend strengthening; with both directions `min(1, 0.8 * min(1, 0.15 r + 0.05 n))`, with one direction the same capped at 0.5 |
| `ConvictionDetector.ExtractDomains` | engine/conviction_detector.py:242-251 | one to three domains: "general" without topics, else the three most common topics |
| `ConvictionDetector.Mapped` | engine/conviction_detector.py:319 | no more signals than ids, each the signal the map holds for one of the listed ids |
| `ConvictionDetector.FirstMatch` | engine/conviction_detector.py:331-336 | the first existing conviction, from a position on, above the 0.85 similarity and not yet updated; none exactly when no later one matches |
| `ConvictionDetector.Decide` | engine/conviction_detector.py:315-363 | a reinforcement touches an existing conviction not yet updated; a creation is fresh and carries the cleaned reply as its statement |
| `ConvictionDetector.Respond` | engine/conviction_detector.py:328-363 | the same for a cluster with enough resonance |
| `ConvictionDetector.Recomputed` | engine/conviction_detector.py:367-399 | the recompute keeps id, statement and lifecycle, and a score within [0, 1] stays there |
| `ConvictionDetector.FindMatch` | engine/conviction_detector.py:331-336 | the matching loop finds the first match not yet updated |
| `ConvictionDetector.VisitCluster` | engine/conviction_detector.py:315-363 | one pass of the cluster loop's body |
| `ConvictionDetector.DecideAction` | engine/conviction_detector.py:316-363 | the loop body skips a weak cluster, reinforces a match or creates a conviction |
| `ConvictionDetector.RespondTo` | engine/conviction_detector.py:328-363 | a resonant cluster: reinforce a match, else create from the reply, else skip |
| `ConvictionDetector.RunLoop` | engine/conviction_detector.py:315-363 | the cluster loop over the clusters in order |
| `ConvictionDetector.RecomputeLoop` | engine/conviction_detector.py:366-399 | the recompute loop over every conviction, existing then new |
| `ConvictionDetector.Detect` | engine/conviction_detector.py:254-403 | `detect` returns and saves what the detect specification says |
| `ConvictionDetector.TooFewSignalsChangeNothing` | engine/conviction_detector.py:268-277 | fewer than two signals, or no embeddings: nothing saved and nothing returned |
| `ConvictionDetector.WeakClusterChangesNothing` | engine/conviction_detector.py:316-321 | a cluster below three ids or without known signals changes nothing |
| `ConvictionDetector.StepReinforcesOnce` | engine/conviction_detector.py:334-344 | a step reinforces at most one existing conviction, one not updated before, and records its id |
| `ConvictionDetector.ApplyReinforcesOnce` | engine/conviction_detector.py:338-344 | applying a reinforcement updates that conviction and adds its id to the updated set |
| `ConvictionDetector.RunKeepsUpdated` | engine/conviction_detector.py:334 | a conviction already updated is not touched again for the rest of the run |
| `ConvictionDetector.StepKeepsIds` | engine/conviction_detector.py:338-344 | a step never changes which conviction sits at which position |
| `ConvictionDetector.RunKeepsIds` | engine/conviction_detector.py:315-363 | the cluster loop never changes which conviction sits at which position |
| `ConvictionDetector.StepKeepsStrengths` | engine/conviction_detector.py:340 | existing scores stay in [0, 1] through a step |
| `ConvictionDetector.StepCreatesFresh` | engine/conviction_detector.py:350-363 | every created conviction is active and first detected today |
| `ConvictionDetector.AppendFresh` | engine/conviction_detector.py:363 | appending a fresh conviction keeps the created list fresh |
| `ConvictionDetector.StepCreatesFromReply` | engine/conviction_detector.py:347-353 | a new conviction's statement is the cleaned reply for its cluster |
| `ConvictionDetector.RunKeepsInvariants` | engine/conviction_detector.py:315-363 | through the loop, scores stay in [0, 1] and created convictions stay fresh |
| `ConvictionDetector.DetectSavesExistingThenNew` | engine/conviction_detector.py:365-403 | returns exactly the new convictions, which are the tail of what is saved after the existing ones in order; every saved score is in [0, 1]; every new one is active and first detected today |
| `ConvictionDetector.SavedAfterRun` | engine/conviction_detector.py:366-401 | the saved list after the recompute keeps the existing-then-new layout and valid scores |
| `ConvictionDetector.RecomputeAllKeeps` | engine/conviction_detector.py:367-399 | the recompute changes strengths only, and keeps them in [0, 1] |
| `DailyBatch.DecisionEntryOf` | engine/daily_batch.py:33-40 | an entry keeps the signal's id and date, has the days since the decision, and the decision text cut to its first 100 characters |
| `DailyBatch.DecisionFollowupsFacts` | engine/daily_batch.py:18-41 | the pending list holds exactly the entries of the decided signals at least the follow-up days old, at most one per signal, each that old |
| `DailyBatch.CheckDecisionFollowups` | engine/daily_batch.py:28-41 | the loop of `_check_decision_followups` builds exactly that list |
| `DailyBatch.Statements` | engine/daily_batch.py:55 | each new conviction is listed by its statement, in order |
| `DailyBatch.Pairs` | engine/daily_batch.py:59-62 | each contradiction is listed by its two statements and its relationship, in order |
| `DailyBatch.Decisions` | engine/daily_batch.py:66-69 | each follow-up is listed by its decision text and its age, in order |
| `DailyBatch.StatementsTake` | engine/daily_batch.py:55 | listing the first five convictions is the first five listed statements |
| `DailyBatch.PairsTake` | engine/daily_batch.py:59-62 | listing the first three contradictions is the first three listed pairs |
| `DailyBatch.DecisionsTake` | engine/daily_batch.py:66-69 | listing the first three follow-ups is the first three listed decisions |
| `DailyBatch.DailySectionsPresent` | engine/daily_batch.py:52-73 | there are no sections iff all three inputs are empty, and each section is there iff its input is non-empty, with its first five or three items |
| `DailyBatch.DailySectionsShape` | engine/daily_batch.py:52-70 | at most three sections, new convictions before contradictions before follow-ups, none empty and none over its quota |
| `DailyBatch.BuildDailySections` | engine/daily_batch.py:52-70 | `_generate_digest`'s section list, grown one test at a time, is the specified one |
| `DailyBatch.ActiveConvictions` | engine/daily_batch.py:158 | exactly the stored convictions whose status is active, no more of them than stored |
| `DailyBatch.PlanDigest` | engine/daily_batch.py:72-87 | the model is not asked iff there are no sections; when it is asked there are sections and the active count is at most the number stored |
| `DailyBatch.DigestText` | engine/daily_batch.py:72-88 | no digest without a call; otherwise the digest has no blank at either end |
| `DailyBatch.RunDaily` | engine/daily_batch.py:91-136 | a digest file is written iff the digest is non-empty, and it holds the returned result |
| `DailyBatch.RunDailyFacts` | engine/daily_batch.py:115-136 | the result counts the step outputs; with nothing new the digest is empty and nothing is written; otherwise the digest is the model's stripped reply |
| `DailyBatch.NewThisWeek` | engine/daily_batch.py:161-164 | exactly the active convictions first detected on or after a week ago |
| `DailyBatch.RecentlyReinforced` | engine/daily_batch.py:165-169 | only active convictions reinforced on or after a week ago |
| `DailyBatch.WithTensions` | engine/daily_batch.py:170 | exactly the active convictions with tensions |
| `DailyBatch.WeakeningOf` | engine/daily_batch.py:190 | exactly the active convictions whose trend is weakening |
| `DailyBatch.NewTraces` | engine/daily_batch.py:174 | exactly the traces dated on or after a week ago |
| `DailyBatch.WeeklyClassification` | engine/daily_batch.py:158-190 | new and reinforced are active and never share a conviction; reinforced is exactly active, reinforced this week and not new; weakening and with-tensions are exactly the active ones with that trait |
| `DailyBatch.FirstTension` | engine/daily_batch.py:198-199 | one item iff the conviction has tensions: its statement with the first tension's relationship |
| `DailyBatch.TensionItems` | engine/daily_batch.py:196-199 | at most one item per conviction |
| `DailyBatch.TensionItemsAll` | engine/daily_batch.py:195-201 | convictions that all have tensions give one item each, so the `if items` test never fails |
| `DailyBatch.CollectTensionItems` | engine/daily_batch.py:196-199 | the nested loop collects exactly those items |
| `DailyBatch.Leveled` | engine/daily_batch.py:180 | each new conviction listed by statement and level, in order |
| `DailyBatch.Scored` | engine/daily_batch.py:185 | each conviction listed by statement and score, in order |
| `DailyBatch.EmergedPart` | engine/daily_batch.py:179-181 | a new-this-week section iff there are new convictions, with one to five items |
| `DailyBatch.GainingPart` | engine/daily_batch.py:183-188 | a reinforced section iff some conviction was reinforced, with one to five items |
| `DailyBatch.FadingPart` | engine/daily_batch.py:190-193 | a weakening section iff some conviction weakens, with one to three items |
| `DailyBatch.StrainedPart` | engine/daily_batch.py:195-201 | a tensions section only when some conviction has tensions, with one to three items |
| `DailyBatch.BuildWeeklySections` | engine/daily_batch.py:177-203 | `run_weekly`'s section list, grown step by step, is the specified one |
| `DailyBatch.StrainedSection` | engine/daily_batch.py:195-201 | the tensions step adds its section only when it collected items |
| `DailyBatch.WeeklySectionsPresent` | engine/daily_batch.py:177-206 | the report has one to five sections and always ends with the figures, so the empty-report branch is never taken; the tensions section is there iff some active conviction has tensions |
| `DailyBatch.WeeklySectionsItems` | engine/daily_batch.py:179-203 | every listed section holds at least one item and at most its quota |
| `DailyBatch.TopReinforcedFacts` | engine/daily_batch.py:186 | the five (or fewer) best scored reinforced convictions, from high to low, and none left out scores above one listed |
| `DailyBatch.RunWeekly` | engine/daily_batch.py:139-234 | the report is saved, dated today with its week starting seven days back; the counts are bounded by the stored lists and new plus reinforced by the active count; the report is the model's stripped reply |
| `DailyBatch.DisjointCount` | engine/daily_batch.py:161-169 | new and reinforced together count at most the active list |
| `DailyBatch.FilterDisjoint` | engine/daily_batch.py:168 | two filters that never both pass take at most the whole list between them |
| `DecisionTracker.ActivatedIds` | engine/decision_tracker.py:60-62 | the ids of the convictions a trace activated, in order |
| `DecisionTracker.PendingFacts` | engine/decision_tracker.py:15-67 | the queue holds exactly the follow-ups of the due traces (not uncertain, not settled, not before the cutoff, old enough), one per due trace, each at least the follow-up days old, sorted by age from oldest |
| `DecisionTracker.CollectFollowups` | engine/decision_tracker.py:32-66 | the loop of `get_pending_followups`, then the sort, builds exactly that queue |
| `DecisionTracker.EffectOf` | engine/decision_tracker.py:99-104 | reinforced iff positive, weakened iff negative, unchanged otherwise (including any other result) |
| `DecisionTracker.ImpactsOf` | engine/decision_tracker.py:106-109 | one impact per activated conviction, in activation order, each with the result's effect |
| `DecisionTracker.FirstTrace` | engine/decision_tracker.py:87-91 | the position of the first trace with that id; none iff no trace has it |
| `DecisionTracker.FindTrace` | engine/decision_tracker.py:87-91 | the search loop stops at that first match |
| `DecisionTracker.FirstIsUnique` | engine/decision_tracker.py:88-91 | a trace with the id and none before it is the one found |
| `DecisionTracker.AffectedIds` | engine/decision_tracker.py:125 | exactly the ids of the activated convictions |
| `DecisionTracker.Clamp` | engine/decision_tracker.py:132 | the result is in [0, 1], equal to the input inside it, 1 above and 0 below |
| `DecisionTracker.Adjusted` | engine/decision_tracker.py:128-148 | the feedback loop keeps the length of the conviction list |
| `DecisionTracker.RecordOutcome` | engine/decision_tracker.py:70-158 | `record_outcome` writes what the record specification says |
| `DecisionTracker.Reinforce` | engine/decision_tracker.py:126-148 | the loop over the convictions gives the adjusted list and the ids it changed |
| `DecisionTracker.RecordUnknown` | engine/decision_tracker.py:93-94 | an unknown trace id is an error and neither file is written |
| `DecisionTracker.RecordWritesTrace` | engine/decision_tracker.py:96-120 | a known id writes the whole trace list with only its first trace of that id changed: result, note, today and one impact per activated conviction |
| `DecisionTracker.NeutralResultChangesNothing` | engine/decision_tracker.py:123-158 | a result other than positive or negative records the outcome and touches no conviction |
| `DecisionTracker.FeedbackFacts` | engine/decision_tracker.py:128-148 | positive or negative moves exactly the activated convictions by 0.05 its way, clamped to [0, 1], level recomputed from the new score, today recorded; every other conviction is unchanged |
| `DecisionTracker.FeedbackKeepsValid` | engine/decision_tracker.py:132-133 | the feedback keeps every score within [0, 1] |
| `DecisionTracker.ChangedIff` | engine/decision_tracker.py:148-155 | the reported ids are exactly the affected ids present in the list |
| `Explorer.Hits` | engine/explorer.py:109-117 | at most `n_results` hits, all from the answer; a failed query has none |
| `Explorer.NearConvictions` | engine/explorer.py:105-120 | no more than the hits: exactly the known convictions among them, with their distances, closer than 0.8 |
| `Explorer.FramesTouching` | engine/explorer.py:154-158 | exactly the frames one of whose primary convictions is among the related ids |
| `Explorer.ViewsOf` | engine/explorer.py:163-171 | one view per tension of the conviction, in order |
| `Explorer.RelatedTensions` | engine/explorer.py:161-171 | exactly the tensions of the related convictions, each with the opposing statement when known and the id otherwise |
| `Explorer.ExploreFacts` | engine/explorer.py:82-215 | related convictions are exactly the known ones among the first ten hits closer than 0.8, so with relevance above 0.2; at full depth the frames are exactly those touching them, the tensions exactly theirs, the traces stored ones, at most ten, and at most six raw signals |
| `Explorer.CloseIds` | engine/explorer.py:488-501 | exactly the ids of the first eight hits closer than 0.8, known or not |
| `Explorer.RankedIds` | engine/explorer.py:503-511 | exactly the ids of the first eight ranked traces |
| `Explorer.FrameIdsTouchingIff` | engine/explorer.py:522-529 | a frame id is collected iff some frame with that id has a primary conviction among the ids |
| `Explorer.LinksFrom` | engine/explorer.py:535-546 | exactly the links of the conviction's tensions whose opposing id is in topic B's set |
| `Explorer.TensionLinksIff` | engine/explorer.py:533-546 | the links are exactly the tensions from a known id of topic A to an id of topic B |
| `Explorer.TensionLinksHas` | engine/explorer.py:534-546 | the same for one link, by induction over the ids of topic A |
| `Explorer.ConnectionsShared` | engine/explorer.py:513-565 | a shared conviction is a close hit of both topics and listed iff known; a trace id is shared iff it is a hit of both topics |
| `Explorer.ConnectionsFrames` | engine/explorer.py:522-569 | a shared frame id belongs to a frame touching topic A and to a frame touching topic B, and the reverse |
| `Explorer.ConnectionsLinks` | engine/explorer.py:533-575 | a link is exactly a tension from a known conviction of topic A to a conviction of topic B |
| `Explorer.SharedFrames` | engine/explorer.py:530 | the shared frame ids are those touching both topics |
| `Explorer.HistoryOf` | engine/explorer.py:267-273 | one point per snapshot that recorded the conviction, in file order, with that snapshot's date and value |
| `Explorer.CloseKnownIds` | engine/explorer.py:242-250 | exactly the known ids among the hits closer than 0.8, in hit order |
| `Explorer.MonthsOf` | engine/explorer.py:303 | one month per trace |
| `Explorer.StylesOf` | engine/explorer.py:304 | one style per trace |
| `Explorer.PeriodsRead` | engine/explorer.py:307-310 | one entry per month asked for |
| `Explorer.Timelines` | engine/explorer.py:264-283 | one timeline per related id, in order, each that conviction's |
| `Explorer.PeriodsFacts` | engine/explorer.py:307 | months come out strictly ascending and every month of a trace comes out |
| `Explorer.PeriodStyleFacts` | engine/explorer.py:308-310 | a month's dominant style is one of that month's styles and no style of that month occurs more often |
| `Explorer.EvolutionTraces` | engine/explorer.py:286-298 | the trace timeline is sorted by date and holds only stored traces |
| `Explorer.EvolutionTimelines` | engine/explorer.py:241-283 | each timeline belongs to a known conviction among the first eight hits closer than 0.8, with one point per snapshot recording it |
| `Explorer.CollectHistory` | engine/explorer.py:267-273 | the snapshot loop builds exactly the history |
| `Explorer.CollectStylePeriods` | engine/explorer.py:301-310 | the period dict, built in one pass and read in ascending month order, gives the style periods |
| `Explorer.PeriodsReadSnoc` | engine/explorer.py:307-310 | reading one more month appends that month's entry |
| `Explorer.ReadPeriod` | engine/explorer.py:308-310 | one month's entry read from its group |
| `Explorer.ReadPeriods` | engine/explorer.py:307-310 | the loop over the sorted months reads every month's entry in order |
| `Explorer.CollectTimelines` | engine/explorer.py:264-283 | the loop over the related ids builds exactly the timelines |
| `Explorer.Evolve` | engine/explorer.py:221-326 | `evolution` returns what the evolution specification says |
| `Explorer.Misaligned` | engine/explorer.py:351 | exactly the recorded alignments whose `aligned` is false; unknown ones do not count |
| `Explorer.SayDoGaps` | engine/explorer.py:347-357 | at most one gap per conviction |
| `Explorer.SayDoGapsIff` | engine/explorer.py:347-357 | the gaps are exactly those of the convictions with a misaligned action |
| `Explorer.GapCounts` | engine/explorer.py:356 | every gap counts at least one and at most all of its conviction's recorded alignments |
| `Explorer.Cites` | engine/explorer.py:371-375 | exactly the signal ids the evidence items cite |
| `Explorer.CitedFacts` | engine/explorer.py:377 | each cited signal is keyed by its own id, and every stored signal with a wanted id is keyed |
| `Explorer.DirectionsCite` | engine/explorer.py:378-379 | the direction set is `{output}` only when some signal is cited |
| `Explorer.AllOutputDirections` | engine/explorer.py:378-379 | some cited signal and every cited one an output give `{output}` |
| `Explorer.DirectionsAllOutput` | engine/explorer.py:377-379 | with distinct signal ids, `{output}` means every cited signal is an output |
| `Explorer.OutputOnlyMeans` | engine/explorer.py:361-384 | a conviction is output-only iff its score is at least 0.3, it cites some stored signal and every stored signal it cites is an output |
| `Explorer.OutputOnlyConvictions` | engine/explorer.py:360-384 | at most one entry per conviction |
| `Explorer.OutputOnlyIff` | engine/explorer.py:360-384 | the list holds exactly the output-only convictions |
| `Explorer.MentionsOf` | engine/explorer.py:390-393 | one mention per topic of the signal, with the signal's direction |
| `Explorer.TopicNames` | engine/explorer.py:391 | the topic of each mention, in order |
| `Explorer.TallyOrder` | engine/explorer.py:388-393 | the tally lists each mentioned topic once, in first-mention order |
| `Explorer.TallyCounts` | engine/explorer.py:392-393 | the tally counts exactly the input and the output mentions of each topic |
| `Explorer.NotMentioned` | engine/explorer.py:392 | a topic never mentioned has no mentions of either direction |
| `Explorer.TallyFacts` | engine/explorer.py:388-393 | the tally's order and counts together |
| `Explorer.Items` | engine/explorer.py:396 | one item per tallied topic |
| `Explorer.TopicCountsFacts` | engine/explorer.py:388-396 | each mentioned topic once, in first-mention order, with its input and output counts |
| `Explorer.HeaviestFacts` | engine/explorer.py:453 | at most ten topics, by input count from high to low, none left out read more than one kept |
| `Explorer.TopicCountsCount` | engine/explorer.py:393-397 | each topic's line counts its input and output mentions |
| `Explorer.InputHeavyFacts` | engine/explorer.py:395-453 | at most ten topics, each with a total of at least five, some input and no output; by input count from high to low; none left out read more than one kept |
| `Explorer.ClashesIn` | engine/explorer.py:410-418 | exactly the contradiction tensions of the conviction, with the opposing statement when known |
| `Explorer.ContradictionsIff` | engine/explorer.py:407-418 | the contradictions reported are exactly the `contradiction` tensions of the convictions |
| `Explorer.DistributionFacts` | engine/explorer.py:421-426 | each style used appears once with its trace count and a share in (0, 1], most used first |
| `Explorer.RatioWithin` | engine/explorer.py:424 | a share of a non-empty count is in (0, 1] |
| `Explorer.ShareAbove` | engine/explorer.py:431-432 | a share above 0.4 is a count above 0.4 of the total |
| `Explorer.InertiaWhen` | engine/explorer.py:428-437 | inertia is reported iff there are more than ten traces and some style is used by more than 40% of them |
| `Explorer.InertiaStyle` | engine/explorer.py:428-437 | the style reported is a most used one, over 40% of the traces, with its share |
| `Explorer.CollectSayDoGaps` | engine/explorer.py:347-357 | the loop builds exactly the gaps |
| `Explorer.AddCited` | engine/explorer.py:371-375 | adding one evidence list's ids is a union with what it cites |
| `Explorer.GatherReferenced` | engine/explorer.py:364-375 | the three evidence lists together give the referenced ids |
| `Explorer.CollectOutputOnly` | engine/explorer.py:360-384 | the loop builds exactly the output-only list |
| `Explorer.MentionsSnoc` | engine/explorer.py:389-391 | one more signal appends its mentions |
| `Explorer.Record` | engine/explorer.py:392-393 | one mention counted in place is one bump of the tally |
| `Explorer.TallySnoc` | engine/explorer.py:391-393 | one more mention is one more bump |
| `Explorer.TallyTopics` | engine/explorer.py:388-393 | the nested loop builds the tally of all mentions |
| `Explorer.ReadInputHeavy` | engine/explorer.py:395-404 | the loop over the tally keeps exactly the input-heavy topics |
| `Explorer.CollectContradictions` | engine/explorer.py:407-418 | the loop builds exactly the contradictions |
| `Explorer.CollectClashes` | engine/explorer.py:411-418 | the inner loop builds exactly one conviction's clashes |
| `Explorer.Blindspots` | engine/explorer.py:332-459 | `blindspots` returns what the blind-spot specification says |
| `FrameClusterer.ContextKey` | engine/frame_clusterer.py:61 | a non-empty key: the trace's context, or "other" when it is missing or empty |
| `FrameClusterer.ContextKeys` | engine/frame_clusterer.py:60-62 | the key of each trace, in order |
| `FrameClusterer.SelectedCarryKey` | engine/frame_clusterer.py:62 | every trace filed under a key carries that key |
| `FrameClusterer.GroupByContext` | engine/frame_clusterer.py:57-63 | the groups partition the traces: keys are the distinct context keys in first-seen order, each group holds exactly its key's traces in their order |
| `FrameClusterer.ActivatedIds` | engine/frame_clusterer.py:72-73 | the conviction id of each activation, in order |
| `FrameClusterer.ActivatedRoles` | engine/frame_clusterer.py:72-74 | the conviction id and role of each activation, in order |
| `FrameClusterer.StepActions` | engine/frame_clusterer.py:82-83 | the action of each step, in order |
| `FrameClusterer.Widen` | engine/frame_clusterer.py:94 | the widened date range holds the new date and the old range, and each end is the new date or the old end |
| `FrameClusterer.AnalyzeGroup` | engine/frame_clusterer.py:66-108 | the one-pass analysis loop gives the group's statistics |
| `FrameClusterer.Dates` | engine/frame_clusterer.py:94 | the date of each trace, in order |
| `FrameClusterer.AnalyzeCounts` | engine/frame_clusterer.py:89-107 | trace count is the group size; positive + negative <= total with outcome <= trace count; trace ids are the traces' ids in order |
| `FrameClusterer.DateRangeBounds` | engine/frame_clusterer.py:94-106 | no date range iff the group is empty; otherwise the earliest and latest dates, both attained |
| `FrameClusterer.AnalyzeRolesParallel` | engine/frame_clusterer.py:71-74 | every counted activation has its role counted beside it |
| `FrameClusterer.PerTraceBound` | engine/frame_clusterer.py:71-73 | counted once per trace, no conviction is counted in more traces than there are |
| `FrameClusterer.PerTraceSame` | engine/frame_clusterer.py:71-73 | the per-trace counts cover exactly the activated convictions |
| `FrameClusterer.RolesFor` | engine/frame_clusterer.py:123 | no roles for a conviction iff none of its activations was recorded |
| `FrameClusterer.TypicalRole` | engine/frame_clusterer.py:123-124 | `framework` without observed roles, otherwise a most common observed role |
| `FrameClusterer.Heavy` | engine/frame_clusterer.py:119-121 | the candidates kept all reach weight 0.1 |
| `FrameClusterer.HeavyAll` | engine/frame_clusterer.py:120-121 | nothing is dropped when every candidate is heavy enough |
| `FrameClusterer.ShareBounds` | engine/frame_clusterer.py:119 | a count out of a larger total is a share in [0, 1] |
| `FrameClusterer.WeightMonotone` | engine/frame_clusterer.py:119 | a larger count never has a smaller weight |
| `FrameClusterer.HeavyIsPrefix` | engine/frame_clusterer.py:118-121 | on counts ranked high to low, the kept ones are a prefix and every later one is below 0.1 |
| `FrameClusterer.Activations` | engine/frame_clusterer.py:111-130 | of the seven most counted convictions, exactly those with weight at least 0.1, each with its weight and typical role |
| `FrameClusterer.ActivationsOf` | engine/frame_clusterer.py:125-129 | one activation per kept conviction, in order |
| `FrameClusterer.BuildActivations` | engine/frame_clusterer.py:117-130 | the activation loop builds exactly those activations |
| `FrameClusterer.ActivationsRanked` | engine/frame_clusterer.py:118 | the activations are distinct convictions by weight from high to low |
| `FrameClusterer.ActivationsTop` | engine/frame_clusterer.py:118-121 | no counted conviction left out outweighs one kept |
| `FrameClusterer.ActivationsAsWritten` | engine/frame_clusterer.py:71-73 | as written: counting every activation, each kept weight reaches 0.1 |
| `FrameClusterer.FrameActivations` | engine/frame_clusterer.py:71-73 | corrected: counting each conviction once per trace, each kept weight reaches 0.1 |
| `FrameClusterer.FrameActivationsValid` | engine/frame_clusterer.py:119 | with the corrected count every weight is a share in [0, 1], as the activation record requires |
| `FrameClusterer.FrameActivationRoles` | engine/frame_clusterer.py:123-124 | every kept conviction's role comes from its own activations, so the `framework` default is never used |
| `FrameClusterer.OverweightActivation` | engine/frame_clusterer.py:71-73 | as written, a group whose every trace activates the same conviction twice gives it weight 2.0, above the activation bound; corrected it gets 1.0 |
| `FrameClusterer.SoleTop` | engine/frame_clusterer.py:118-129 | a conviction counted `q * n` times in `n` traces, and nothing else, is the only activation, with weight `q` |
| `FrameClusterer.FramePatterns` | engine/frame_clusterer.py:133-145 | no preferred style iff the group has no style; typical steps and historical traces are always set |
| `FrameClusterer.FramePatternsFacts` | engine/frame_clusterer.py:135-144 | the preferred style is a most used one; the typical steps are at most five distinct steps none used less than one left out; the historical traces are the first twenty |
| `FrameClusterer.FrameEffectiveness` | engine/frame_clusterer.py:148-157 | none iff no trace has a verdict; otherwise the positive share, the group size and the positive and negative counts |
| `FrameClusterer.NoVerdictCounted` | engine/frame_clusterer.py:91 | the total with outcome is zero iff no trace has a result other than pending |
| `FrameClusterer.EffectivenessFacts` | engine/frame_clusterer.py:148-157 | a record exists iff some trace has a verdict, and its success rate is in [0, 1] |
| `FrameClusterer.CandidateOf` | engine/frame_clusterer.py:239-240 | the candidate of a non-empty group carries its context, its traces and their statistics |
| `FrameClusterer.BuildParts` | engine/frame_clusterer.py:270-274 | the frame parts of a group, with activations from the corrected count |
| `FrameClusterer.GroupsReady` | engine/frame_clusterer.py:57-63 | every key of a grouping has a non-empty group |
| `FrameClusterer.Pick` | engine/frame_clusterer.py:235-243 | the groups, in key order, with at least `min_traces` traces; none iff every group is smaller |
| `FrameClusterer.CollectCandidates` | engine/frame_clusterer.py:235-240 | the candidate loop picks exactly those groups |
| `FrameClusterer.AddKeywords` | engine/frame_clusterer.py:252-253 | filing keywords under a frame keeps the other keys and points each keyword at that frame |
| `FrameClusterer.AddTriggers` | engine/frame_clusterer.py:250-253 | the same for all keywords of a frame's trigger patterns |
| `FrameClusterer.KeywordIndexFacts` | engine/frame_clusterer.py:248-253 | each keyword leads to a frame listing it, the last one that does |
| `FrameClusterer.IdPart` | engine/frame_clusterer.py:256-257 | the second `_`-separated part of the id, which holds no `_` |
| `FrameClusterer.IdIndexFacts` | engine/frame_clusterer.py:255-258 | the id pass keeps every key; a key it changes leads to a frame with that id part, the last one with it |
| `FrameClusterer.FrameIndex` | engine/frame_clusterer.py:247-258 | every indexed frame is on file |
| `FrameClusterer.FrameIndexFacts` | engine/frame_clusterer.py:247-258 | every keyword and every id part is a key; each key leads to a frame that lists it or carries it as id part; an id part leads to the last frame with it |
| `FrameClusterer.BuildIndex` | engine/frame_clusterer.py:247-258 | the two passes build exactly that index |
| `FrameClusterer.KeywordPass` | engine/frame_clusterer.py:248-253 | the keyword pass builds the keyword index |
| `FrameClusterer.FileTriggers` | engine/frame_clusterer.py:250-253 | one frame's trigger keywords filed under it |
| `FrameClusterer.FileKeywords` | engine/frame_clusterer.py:252-253 | one pattern's keywords filed under the frame |
| `FrameClusterer.IdPass` | engine/frame_clusterer.py:255-258 | the id pass overrides the keyword index with id parts |
| `FrameClusterer.Refresh` | engine/frame_clusterer.py:270-276 | a refreshed frame keeps its id |
| `FrameClusterer.RefreshKeepsValid` | engine/frame_clusterer.py:268-277 | a refresh changes only the derived parts and the last-activated date, and keeps weights and success rate within [0, 1] |
| `FrameClusterer.NewTriggers` | engine/frame_clusterer.py:286-293 | never empty: the reply's patterns, or one pattern naming the context |
| `FrameClusterer.NewFrameId` | engine/frame_clusterer.py:296-301 | starts with `frame_` and ends with `_` and the three-digit sequence number |
| `FrameClusterer.TrailingDigits` | engine/frame_clusterer.py:301 | no more trailing digits than characters |
| `FrameClusterer.NewFrameIdsDiffer` | engine/frame_clusterer.py:296-301 | new frames with different sequence numbers get different ids, whatever their contexts |
| `FrameClusterer.NewFrame` | engine/frame_clusterer.py:295-318 | the new frame has the owner and the numbered id, a name of at most 50 and a description of at most 300 characters, some trigger, and is active |
| `FrameClusterer.RefreshTarget` | engine/frame_clusterer.py:266-268 | a frame is refreshed iff the context is indexed and that frame was not yet refreshed |
| `FrameClusterer.Place` | engine/frame_clusterer.py:264-319 | one step keeps the number of frames on file |
| `FrameClusterer.PlaceAll` | engine/frame_clusterer.py:264-319 | the whole loop keeps the number of frames on file |
| `FrameClusterer.RunKeepsFrames` | engine/frame_clusterer.py:268-278 | every frame on file stays as it was or is refreshed, keeping its identity, naming and triggers |
| `FrameClusterer.RunRefreshesOnce` | engine/frame_clusterer.py:262-277 | each frame on file is refreshed at most once; the refreshed ids are exactly `updated_ids`; an untouched frame is unchanged |
| `FrameClusterer.PlaceLogs` | engine/frame_clusterer.py:268-277 | one step keeps those facts, logging the frame it refreshes |
| `FrameClusterer.PlaceFrames` | engine/frame_clusterer.py:268-283 | after a step the target is refreshed, or all frames on file are as they were |
| `FrameClusterer.NewFrameWellMade` | engine/frame_clusterer.py:299-318 | a new frame is well made: numbered, owned, bounded name and description, a trigger, active and activated today, valid weights and success rate |
| `FrameClusterer.PlaceCreated` | engine/frame_clusterer.py:268-319 | a step creates nothing when it refreshes or the reply gives no metadata, otherwise one frame |
| `FrameClusterer.PlaceCreates` | engine/frame_clusterer.py:281-319 | a step adds at most one frame, well made and numbered after those before |
| `FrameClusterer.RunCreates` | engine/frame_clusterer.py:296-319 | the `k`-th new frame has sequence number `len(existing) + k + 1` and is well made |
| `FrameClusterer.CreatedDistinct` | engine/frame_clusterer.py:296-301 | the new frames of a run have pairwise different ids |
| `FrameClusterer.RefreshFields` | engine/frame_clusterer.py:270-276 | the matched frame's fields reassigned in place give the refreshed frame |
| `FrameClusterer.PlaceOne` | engine/frame_clusterer.py:264-319 | one candidate placed: refreshed in place or appended |
| `FrameClusterer.RefreshMatched` | engine/frame_clusterer.py:268-278 | the matched, not yet refreshed frame, refreshed in place |
| `FrameClusterer.CreateOrSkip` | engine/frame_clusterer.py:280-319 | a new frame from the reply, or nothing when it gives no metadata |
| `FrameClusterer.PlaceCandidates` | engine/frame_clusterer.py:264-319 | the main loop over the candidates |
| `FrameClusterer.CandidatesOf` | engine/frame_clusterer.py:232-240 | every candidate is a group of its context with its statistics and corrected frame parts |
| `FrameClusterer.ClusterEnv` | engine/frame_clusterer.py:246-262 | the run's environment indexes the frames on file |
| `FrameClusterer.Clustering` | engine/frame_clusterer.py:214-325 | a run that writes nothing creates nothing |
| `FrameClusterer.Cluster` | engine/frame_clusterer.py:214-325 | `cluster` (with the corrected activation weights, counted once per trace) returns the new frames and writes the frames on file followed by them |
| `FrameClusterer.GroupSize` | engine/frame_clusterer.py:237 | a group's size is the number of traces with its key |
| `FrameClusterer.ClusterNothing` | engine/frame_clusterer.py:225-243 | nothing is written iff there are no traces or every context has fewer than `min_traces` traces |
| `FrameClusterer.ClusterWrites` | engine/frame_clusterer.py:321-325 | what is written is the frames on file, each kept or refreshed, then the new frames, well made, numbered on and with distinct ids |
| `FrameClusterer.ClusterRefreshesOnce` | engine/frame_clusterer.py:262-323 | in what is written, each frame on file is refreshed at most once and the others are as they were |
| `IdentityScanner.CleanReply` | engine/identity_scanner.py:84-92 | the fence-stripped reply, never empty, or nothing when it is blank |
| `IdentityScanner.CleanReplyWrapped` | engine/identity_scanner.py:88-92 | a fenced block gives back its stripped body, or nothing when the body is blank |
| `IdentityScanner.CleanReplyPlain` | engine/identity_scanner.py:87-92 | a reply without fences is only stripped |
| `IdentityScanner.CidsOf` | engine/identity_scanner.py:116 | the conviction ids a frame lists as primary, in order |
| `IdentityScanner.FidsOf` | engine/identity_scanner.py:119 | the frame's id once per primary activation |
| `IdentityScanner.Vals` | engine/identity_scanner.py:115-119 | one value per key the coverage loop files |
| `IdentityScanner.KeysVals` | engine/identity_scanner.py:115-119 | one more frame appends its ids and its frame id that many times |
| `IdentityScanner.BuildFrameMap` | engine/identity_scanner.py:114-119 | `conviction_frame_map`: for each conviction id, in first-seen order, the frames listing it, once per listing |
| `IdentityScanner.AddFrame` | engine/identity_scanner.py:116-119 | the inner loop files one frame's id under each conviction it lists |
| `IdentityScanner.PrimaryStep` | engine/identity_scanner.py:116-119 | one more activation files one more entry |
| `IdentityScanner.Listing` | engine/identity_scanner.py:115-119 | no more listing frames than frames |
| `IdentityScanner.CountDistinct` | engine/identity_scanner.py:116 | in a list without repeats an id occurs once or not at all |
| `IdentityScanner.CountIsListing` | engine/identity_scanner.py:114-129 | when no frame lists a conviction twice, its entries are the frames listing it, so its coverage is at most 1 |
| `IdentityScanner.Coverage` | engine/identity_scanner.py:129 | non-negative, and at most 1 for a count within the total |
| `IdentityScanner.CoverageBounds` | engine/identity_scanner.py:129 | a count over the number of active frames is non-negative, at most 1 when the count is within it |
| `IdentityScanner.CandidatesOf` | engine/identity_scanner.py:131 | one candidate per id, with its frames and its coverage |
| `IdentityScanner.CollectCandidates` | engine/identity_scanner.py:127-139 | the candidate loops keep exactly the ids, in map order, that pass the test |
| `IdentityScanner.PickedEntries` | engine/identity_scanner.py:128-131 | each picked candidate passed the test and carries its id's frames and coverage |
| `IdentityScanner.PickedAll` | engine/identity_scanner.py:128-131 | every id that passes the test is picked |
| `IdentityScanner.PromotedExactly` | engine/identity_scanner.py:127-131 | a conviction is promoted iff it is on file and its coverage reaches the threshold |
| `IdentityScanner.PromotedFrames` | engine/identity_scanner.py:127-131 | a promoted conviction carries every frame listing it, in frame order, and its coverage |
| `IdentityScanner.FallbackFacts` | engine/identity_scanner.py:134-141 | the fallback takes at most three convictions on file listed by two or more frames, in descending (coverage, strength) order, and none left out ranks above one taken |
| `IdentityScanner.Template` | engine/identity_scanner.py:160 | the template quotes at most 30 characters of the statement |
| `IdentityScanner.ExpressionsFor` | engine/identity_scanner.py:73-163 | each expression is at most 200 characters: the model's cut to 200, or templates |
| `IdentityScanner.IdentityIdsDiffer` | engine/identity_scanner.py:165-168 | different sequence numbers give different identity ids |
| `IdentityScanner.MakeIdentityValid` | engine/identity_scanner.py:166-182 | a new identity satisfies the record's bounds when its conviction does and its coverage is a share |
| `IdentityScanner.Identities` | engine/identity_scanner.py:150-183 | one identity per candidate, the `k`-th numbered `k + 1` and carrying its candidate's conviction |
| `IdentityScanner.BuildIdentities` | engine/identity_scanner.py:148-183 | the identity loop builds exactly those identities |
| `IdentityScanner.BuildIdentity` | engine/identity_scanner.py:151-182 | the loop body builds one identity |
| `IdentityScanner.Chosen` | engine/identity_scanner.py:127-141 | every chosen candidate is on file |
| `IdentityScanner.Scanning` | engine/identity_scanner.py:95-188 | a scan that writes nothing finds nothing |
| `IdentityScanner.Scan` | engine/identity_scanner.py:95-188 | `scan` returns and writes what the scan specification says |
| `IdentityScanner.ScanWrites` | engine/identity_scanner.py:107-186 | the file is written iff some identity is found, and then replaced by the new list; fewer than two active frames find none |
| `IdentityScanner.ScanIdentities` | engine/identity_scanner.py:165-183 | the `k`-th identity is `id_` with `k + 1` in three digits, the ids differ, each belongs to the owner and a conviction on file, its core belief is that statement cut to 150 and it is non-negotiable iff the strength is at least 0.9 |
| `IdentityScanner.IdentitiesFacts` | engine/identity_scanner.py:150-183 | the same for any list of candidates on file |
| `IdentityScanner.ScanValid` | engine/identity_scanner.py:166-182 | with valid convictions and no frame listing a conviction twice, every identity satisfies the record's bounds |
| `IdentityScanner.IdentitiesValid` | engine/identity_scanner.py:166-182 | identities of valid convictions with share coverages are valid |
| `IdentityScanner.KnownValid` | engine/identity_scanner.py:111 | a conviction found by id is one of the valid ones on file |
| `IdentityScanner.KeyedByFrom` | engine/identity_scanner.py:111 | a conviction found by id is on file |
| `IdentityScanner.ChosenShares` | engine/identity_scanner.py:127-141 | every chosen coverage is a share when no frame lists a conviction twice |
| `IdentityScanner.FramesWithin` | engine/identity_scanner.py:114-119 | then no conviction is filed under more frames than there are |
| `IdentityScanner.TemplatedExpressions` | engine/identity_scanner.py:155-163 | without the model's expressions, each of the conviction's first five frames gets the template |
| `MigrateAtoms.ModalityMapHas` | migrate_atoms.py:18-30 | every modality is in the table under its own name, with its own direction |
| `MigrateAtoms.ModalityMapOnly` | migrate_atoms.py:18-30 | the table maps a name only to the modality of that name, with that modality's direction |
| `MigrateAtoms.ModalityMapIff` | migrate_atoms.py:18-30 | the table holds `(d, m)` under a name iff the name is `m`'s and `d` is `m`'s direction |
| `MigrateAtoms.AuthorityDirection` | migrate_atoms.py:33-51 | output iff the authority is `own_voice`; input for every other value and for none |
| `MigrateAtoms.OutputModality` | migrate_atoms.py:55-63 | the modality guessed for an output atom is an output modality |
| `MigrateAtoms.InputModality` | migrate_atoms.py:64-70 | the modality guessed for an input atom is an input modality, highlighted iff the context is book reading and the authority endorsed |
| `MigrateAtoms.DirectionAndModality` | migrate_atoms.py:41-72 | the direction always agrees with the table's direction for the modality |
| `MigrateAtoms.DirectionAndModalityFacts` | migrate_atoms.py:43-70 | a known input modality decides the pair by itself; otherwise the direction is output iff the authority is own voice, and the modality is guessed from the context |
| `MigrateAtoms.ContentTypeOf` | migrate_atoms.py:84-86 | `observation` without a type; the three remapped types get their new names; any other type passes through |
| `MigrateAtoms.ContextOf` | migrate_atoms.py:99-110 | a valid context is kept; an absent or invalid one becomes `other` |
| `MigrateAtoms.NonEmpty` | migrate_atoms.py:115 | a list is kept iff present and non-empty |
| `MigrateAtoms.DirectedList` | migrate_atoms.py:135-139 | a single recipient becomes a one-element list; an empty list becomes none |
| `MigrateAtoms.Allowed` | migrate_atoms.py:140-141 | a value is kept iff it is one of the allowed names |
| `MigrateAtoms.AudienceOf` | migrate_atoms.py:123-142 | an audience iff the atom has one, and it passes the audience validator |
| `MigrateAtoms.SignalSourceOf` | migrate_atoms.py:98-120 | the date defaults to 2026-01-01, the context is checked, empty participants become none, the file is kept |
| `MigrateAtoms.LifecycleOf` | migrate_atoms.py:150-154 | active unless the atom says `active: false` |
| `MigrateAtoms.AtomToSignal` | migrate_atoms.py:75-170 | a signal iff the mapped content type is one the Signal record allows; otherwise an error naming that type |
| `MigrateAtoms.AtomToSignalFacts` | migrate_atoms.py:75-170 | a migrated signal is valid, keyed `sig_` + atom id (or `unknown`), direction and modality agree, its text is the first 300 characters, confidence and authority kept only when allowed, date and context as above |
| `Strings.StripBy` | engine/contradiction_alert.py:32 | `str.strip`: the result neither starts nor ends with a stripped character and is a slice of the text with only stripped characters cut off |
| `Strings.StripKeepsTrimmed` | engine/daily_batch.py:88 | stripping text that starts and ends with a kept character changes nothing |
| `Strings.StripIdempotent` | engine/daily_batch.py:88 | stripping twice is stripping once |
| `Strings.LowerIdempotent` | engine/contradiction_alert.py:32 | lower-casing twice is lower-casing once |
| `Strings.LowerStripped` | engine/contradiction_alert.py:32 | lower-casing stripped text leaves nothing to strip |
| `Strings.Split` | engine/frame_clusterer.py:256 | `str.split` on one character: at least one part, none holding the separator |
| `Strings.SplitJoin` | engine/frame_clusterer.py:256 | joining the parts with the separator gives the text back |
| `Strings.SplitWithoutSeparator` | engine/frame_clusterer.py:256-257 | a text without the separator is one part, so it has no second part |
| `Strings.ReplaceChar` | engine/frame_clusterer.py:298 | `str.replace` of one character keeps the length and leaves none of the replaced character |
| `Strings.NatToString` | engine/frame_clusterer.py:301 | `str(n)`: at least one digit, digits only |
| `Strings.NatToStringRoundTrip` | engine/frame_clusterer.py:301 | the digits read back as the number |
| `Strings.Pad3` | engine/frame_clusterer.py:301 | `{n:03d}`: at least three digits, digits only |
| `Strings.Pad3RoundTrip` | engine/identity_scanner.py:168 | the padded number reads back as the number |
| `Strings.Pad3Injective` | engine/identity_scanner.py:168 | different numbers pad to different texts |
| `Strings.UnfencePlain` | engine/frame_clusterer.py:200-206 | a reply without fences is only stripped |
| `Strings.UnfenceWrapped` | engine/frame_clusterer.py:200-206 | a body in a fenced block, whatever its opening tag, comes back out stripped |
| `TraceExtractor.KeysOf` | engine/trace_extractor.py:77 | each signal's group key is its `(date, context)` pair |
| `TraceExtractor.ContextNameInjective` | engine/trace_extractor.py:77 | different contexts have different names, so grouping by name groups by context |
| `TraceExtractor.KeyTotal` | engine/trace_extractor.py:80 | tuple order on `(date, context)` keys is total |
| `TraceExtractor.KeyIrreflexive` | engine/trace_extractor.py:80 | no key sorts before itself |
| `TraceExtractor.KeyTransitive` | engine/trace_extractor.py:80 | tuple order on keys is transitive |
| `TraceExtractor.InsertKey` | engine/trace_extractor.py:80 | inserting into sorted keys keeps them sorted and adds exactly that key |
| `TraceExtractor.BelowHead` | engine/trace_extractor.py:80 | a key below the head of sorted keys is below none of them |
| `TraceExtractor.InsertedNotBelow` | engine/trace_extractor.py:80 | after inserting, nothing sorts below the old head when the new key does not |
| `TraceExtractor.PrependSorted` | engine/trace_extractor.py:80 | a head no element sorts below can be put in front of sorted keys |
| `TraceExtractor.SortKeys` | engine/trace_extractor.py:80 | `sorted(groups)`: the keys in ascending order, a permutation of the input |
| `TraceExtractor.SortedDistinct` | engine/trace_extractor.py:80 | sorting distinct keys gives each once, strictly ascending, and no other |
| `TraceExtractor.ChunksFor` | engine/trace_extractor.py:82-84 | every chunk of a group carries the group's key and holds 1 to 30 signals |
| `TraceExtractor.AllChunks` | engine/trace_extractor.py:80-84 | every chunk carries one of the groups' keys and holds 1 to 30 signals |
| `TraceExtractor.ChunksForStep` | engine/trace_extractor.py:82-84 | one turn of the chunking loop: the slice from `i` (30 or what is left), then the rest |
| `TraceExtractor.ChunkGroup` | engine/trace_extractor.py:82-84 | the chunking loop gives the group's chunks |
| `TraceExtractor.GroupSignals` | engine/trace_extractor.py:73-85 | `_group_signals` gives the chunked groups |
| `TraceExtractor.ChunkAll` | engine/trace_extractor.py:80-84 | the loop over sorted keys gives each group's chunks in key order |
| `TraceExtractor.AllChunksStep` | engine/trace_extractor.py:80-84 | one turn of the outer loop: the chunks of the current group, then the rest |
| `TraceExtractor.OfKey` | engine/trace_extractor.py:77-84 | the chunks of one key are among the chunks and carry that key |
| `TraceExtractor.ConcatAppend` | engine/trace_extractor.py:84 | joining chunks distributes over appending chunk lists |
| `TraceExtractor.OfKeyAppend` | engine/trace_extractor.py:84 | selecting a key's chunks distributes over appending chunk lists |
| `TraceExtractor.ChunksRejoin` | engine/trace_extractor.py:82-84 | a group's chunks, joined, are the group, and all carry its key |
| `TraceExtractor.OfKeyNone` | engine/trace_extractor.py:84 | chunks of other keys hold none of this key's chunks |
| `TraceExtractor.AllChunksOfKey` | engine/trace_extractor.py:80-84 | within distinct groups, a key's chunks joined give exactly that group |
| `TraceExtractor.ChunkedFacts` | engine/trace_extractor.py:73-85 | every chunk holds 1 to 30 signals of one group; chunks come in ascending key order; a group's chunks joined give the group in input order |
| `TraceExtractor.ChunksCarryKeys` | engine/trace_extractor.py:77-84 | every signal of a chunk has the chunk's key |
| `TraceExtractor.ChunkInGroup` | engine/trace_extractor.py:80-84 | every signal of a chunk belongs to the chunk's group |
| `TraceExtractor.ChunkOfGroup` | engine/trace_extractor.py:82-84 | a chunk of a group holds only signals of that group |
| `TraceExtractor.SelectCarriesKey` | engine/trace_extractor.py:77 | a signal grouped under a key has that key |
| `TraceExtractor.ConcatOrdered` | engine/trace_extractor.py:80 | two ordered chunk lists, the second not below the first, append to an ordered list |
| `TraceExtractor.ChunksForOrdered` | engine/trace_extractor.py:82-84 | a group's chunks are in order (they share one key) |
| `TraceExtractor.AllChunksOrdered` | engine/trace_extractor.py:80-84 | chunks of strictly ascending keys are in ascending key order |
| `TraceExtractor.HeadBeforeRest` | engine/trace_extractor.py:80-84 | a chunk of the first group never sorts after a chunk of a later one |
| `TraceExtractor.RegroupedSnoc` | engine/trace_extractor.py:76-77 | appending one signal adds exactly that signal to its group |
| `TraceExtractor.RegroupedPermutes` | engine/trace_extractor.py:76-77 | grouping loses and repeats no signal |
| `TraceExtractor.RegroupedEmpty` | engine/trace_extractor.py:76-77 | grouping no signals gives nothing |
| `TraceExtractor.AllChunksRegrouped` | engine/trace_extractor.py:76-84 | all chunks joined are the signals grouped by key |
| `TraceExtractor.ChunkedPermutes` | engine/trace_extractor.py:73-85 | every input signal lies in exactly one chunk: the chunks are a permutation of the input |
| `TraceExtractor.FromIds` | engine/trace_extractor.py:179-183 | the 1-based indices map to ids of the chunk's signals, indices out of range dropped |
| `TraceExtractor.FromIdsInRange` | engine/trace_extractor.py:179-183 | with every index in range, the ids are those of the signals pointed at, in order |
| `TraceExtractor.FromIdsOutOfRange` | engine/trace_extractor.py:179-183 | with no index in range, there are no ids |
| `TraceExtractor.MapIndices` | engine/trace_extractor.py:179-183 | the index loop gives those ids |
| `TraceExtractor.ActivationOf` | engine/trace_extractor.py:186-191 | an activation is built iff its id and a known role are present and the note is at most 100 characters; it is then valid and keeps the id |
| `TraceExtractor.StepOf` | engine/trace_extractor.py:194-199 | a step is built iff a known action and a description of at most 150 characters are present |
| `TraceExtractor.ActivationsOf` | engine/trace_extractor.py:185-191 | all activations are built, in order, or the entry fails as soon as one fails |
| `TraceExtractor.StepsOf` | engine/trace_extractor.py:193-199 | all steps are built, in order, or the entry fails as soon as one fails |
| `TraceExtractor.CollectActivations` | engine/trace_extractor.py:185-191 | the activations loop gives those activations |
| `TraceExtractor.ActivationsFail` | engine/trace_extractor.py:185-191 | one bad activation fails the whole entry |
| `TraceExtractor.CollectSteps` | engine/trace_extractor.py:193-199 | the steps loop gives those steps |
| `TraceExtractor.FirstOf` | engine/trace_extractor.py:208 | `ids[0] if ids else None` |
| `TraceExtractor.TraceFrom` | engine/trace_extractor.py:176-236 | an entry yields a trace iff the chunk has signals and the entry is well formed |
| `TraceExtractor.TraceIdFor` | engine/trace_extractor.py:217 | a trace id starts with `trace_` |
| `TraceExtractor.TracesOf` | engine/trace_extractor.py:176-236 | at most one trace per entry |
| `TraceExtractor.TracesOfSnoc` | engine/trace_extractor.py:176-236 | one more entry adds its trace, if any, at the end |
| `TraceExtractor.ParsedAsWritten` | engine/trace_extractor.py:157-238 | as written: no parsed trace records its context |
| `TraceExtractor.TraceFromShaped` | engine/trace_extractor.py:204-233 | a built trace takes owner, source file, participants and date from the chunk and its output signal from the first in-range index |
| `TraceExtractor.TracesFacts` | engine/trace_extractor.py:176-236 | every kept trace is shaped by the chunk and built from a well-formed entry |
| `TraceExtractor.TracesShaped` | engine/trace_extractor.py:204-233 | every kept trace is shaped by the chunk |
| `TraceExtractor.TracesBuilt` | engine/trace_extractor.py:176-236 | every kept trace comes from one of the entries |
| `TraceExtractor.TracesCount` | engine/trace_extractor.py:176-236 | a chunk with signals keeps exactly its well-formed entries; one without keeps none |
| `TraceExtractor.KeptFlags` | engine/trace_extractor.py:235-236 | which entries are kept: exactly the well-formed ones |
| `TraceExtractor.BuildEntry` | engine/trace_extractor.py:177-233 | building one entry gives that trace or `None` |
| `TraceExtractor.ParseGroup` | engine/trace_extractor.py:157-238 | the parsing loop gives the parsed traces (corrected: recording the group's context) |
| `TraceExtractor.ContextNameNonEmpty` | engine/trace_extractor.py:77 | every context has a non-empty name |
| `TraceExtractor.ParsedFacts` | engine/trace_extractor.py:157-238 | (corrected) a reply that does not decode yields nothing; one that does yields one trace per well-formed entry (none without signals), each shaped by the chunk and carrying its context |
| `TraceExtractor.ContextDropped` | engine/trace_extractor.py:227-231 | as written, every parsed trace falls into the clusterer's "other" group, even for a chunk of another context |
| `TraceExtractor.OtherName` | engine/trace_extractor.py:77 | only the `other` context is named "other" |
| `TraceExtractor.OnlyContextDiffers` | engine/trace_extractor.py:227-231 | recording the context changes nothing but the recorded context |
| `TraceExtractor.Mined` | engine/trace_extractor.py:268-272 | the signals existing traces came from, empty ids not counted |
| `TraceExtractor.Unmined` | engine/trace_extractor.py:257-273 | the extractable signals not yet mined |
| `TraceExtractor.Candidates` | engine/trace_extractor.py:257-273 | the candidates are the output signals of an extractable modality no existing trace came from |
| `TraceExtractor.UnminedNone` | engine/trace_extractor.py:272-275 | nothing to mine when every extractable signal was mined |
| `TraceExtractor.Limited` | engine/trace_extractor.py:280-281 | `groups[:limit]`: a prefix; a positive limit keeps that many groups (or all); `None` or 0 keeps all |
| `TraceExtractor.NewTracesSnoc` | engine/trace_extractor.py:299-301 | one more group adds its parsed traces at the end |
| `TraceExtractor.Extract` | engine/trace_extractor.py:241-307 | `extract` computes the extraction: new traces and what is written |
| `TraceExtractor.ExtractWrites` | engine/trace_extractor.py:303-307 | existing traces are kept as they are; new ones are appended and written only when there are some |
| `TraceExtractor.InConcat` | engine/trace_extractor.py:84 | a signal of a chunk lies in the joined chunks |
| `TraceExtractor.NewTracesFrom` | engine/trace_extractor.py:299-301 | every new trace was parsed from one group's reply |
| `TraceExtractor.ChunkMembers` | engine/trace_extractor.py:73-85 | a chunk's signals are input signals with the chunk's key |
| `TraceExtractor.ParsedGrounded` | engine/trace_extractor.py:278-301 | a trace parsed from a chunk of the candidates is grounded in them |
| `TraceExtractor.ShapedGrounded` | engine/trace_extractor.py:204-233 | a trace shaped by a chunk of candidates is grounded in them |
| `TraceExtractor.ExtractGrounded` | engine/trace_extractor.py:257-301 | every new trace comes from candidates no existing trace came from |
| `TraceExtractor.ExtractNothing` | engine/trace_extractor.py:272-275 | without candidates nothing is asked, returned or written |
| `QueryEngine.AnyKeyword` | engine/query_engine.py:64-65 | true iff one of the keywords occurs in the text |
| `QueryEngine.EntryOf` | engine/query_engine.py:77-87 | the cached entry holds the snapshot, and its conviction map holds exactly the snapshot's conviction ids, each mapped to a conviction with that id |
| `QueryEngine.QueryCache.constructor` | engine/query_engine.py:70 | the cache starts empty |
| `QueryEngine.QueryCache.Get` | engine/query_engine.py:73-88 | an absent owner is loaded once and added; a present one is returned unchanged whatever the files now hold |
| `QueryEngine.QueryCache.Invalidate` | engine/query_engine.py:91-96 | a non-empty owner id drops that owner only; `None` or "" clears the cache |
| `QueryEngine.KeywordHits` | engine/query_engine.py:223-226 | at most one hit per keyword; zero iff no lower-cased keyword occurs in the lower-cased question |
| `QueryEngine.FrameHits` | engine/query_engine.py:221-226 | a frame's hits are zero iff none of its trigger patterns hits |
| `QueryEngine.HitCounts` | engine/query_engine.py:220-226 | one hit count per frame, in frame order |
| `QueryEngine.FirstBest` | engine/query_engine.py:217-231 | no frame iff every count is zero; otherwise a frame with a positive count |
| `QueryEngine.ReflexFacts` | engine/query_engine.py:214-231 | the reflex match is the first frame with the greatest positive hit count: none before it has as many, none after has more; no match iff no frame hits |
| `QueryEngine.CountKeywordHits` | engine/query_engine.py:223-226 | the keyword loop counts the keyword hits |
| `QueryEngine.CountFrameHits` | engine/query_engine.py:221-226 | the pattern loop counts the frame's hits |
| `QueryEngine.ReflexMatch` | engine/query_engine.py:214-231 | `_reflex_match` gives the reflex match |
| `QueryEngine.EmbeddingMatch` | engine/query_engine.py:234-259 | a frame iff there are frames and the nearest one lies closer than 0.7 and is among them; it is then that frame |
| `QueryEngine.FirstType` | engine/query_engine.py:725-731 | a query iff no type's keyword occurs; a generated type always has a keyword that occurs |
| `QueryEngine.IntentPrecedence` | engine/query_engine.py:713-731 | a text is classified as the first type, in the order script, article, post, decision, one of whose keywords occurs in the lower-cased text, whatever later types also match |
| `QueryEngine.LowConfidence` | engine/query_engine.py:419-438 | low confidence iff both collections exist and neither nearest item lies closer than the threshold |
| `QueryEngine.Mapped` | engine/query_engine.py:277-281 | `[m[k] for k in ids if k in m]`: no more results than ids, each the value of a listed known key |
| `QueryEngine.RelevantConvictions` | engine/query_engine.py:264-287 | at most `limit` convictions |
| `QueryEngine.MappedIn` | engine/query_engine.py:85-87 | every value looked up in a map built from items is one of the items |
| `QueryEngine.RelevantConvictionsKnown` | engine/query_engine.py:264-287 | every activated conviction is one of the owner's |
| `QueryEngine.StrongestConvictionsFacts` | engine/query_engine.py:285-287 | the fallback is sorted by strength, keeps `limit` convictions or all, and none left out is stronger than one kept |
| `QueryEngine.History` | engine/query_engine.py:303-304 | a listed history is never empty |
| `QueryEngine.HistoryTraces` | engine/query_engine.py:305 | only the owner's traces whose ids the frame lists |
| `QueryEngine.RelevantTraces` | engine/query_engine.py:293-329 | at most `limit` traces; a frame with at least `limit` known historical traces gives its first `limit` |
| `QueryEngine.RelevantTracesKnown` | engine/query_engine.py:293-329 | every retrieved trace is one of the owner's |
| `QueryEngine.Third` | engine/query_engine.py:361 | `max(1, limit // 3)` is at least 1 |
| `QueryEngine.Middle` | engine/query_engine.py:364-366 | a run of consecutive candidates from `n // 3` that stops before `2 * n // 3`, no longer than `limit - 2 * third` |
| `QueryEngine.SpreadEnds` | engine/query_engine.py:358-370 | up to `limit` candidates all come back; beyond, the first and last `third` are kept at front and back |
| `QueryEngine.SpreadPositions` | engine/query_engine.py:358-370 | each position of the spread holds the candidate at an increasing position |
| `QueryEngine.PosIncreasing` | engine/query_engine.py:358-370 | those positions strictly increase |
| `QueryEngine.SpreadSorted` | engine/query_engine.py:358-370 | for `limit >= 3` the spread has at most `limit` traces, still in date order |
| `QueryEngine.SpreadWithin` | engine/query_engine.py:358-370 | the spread holds only candidates |
| `QueryEngine.InParts` | engine/query_engine.py:367-370 | a member of the three slices is a candidate |
| `QueryEngine.TemporalTracesFacts` | engine/query_engine.py:332-370 | temporal traces are the owner's; for `limit >= 3` at most `limit`, in date order |
| `QueryEngine.PersistenceIdsFrom` | engine/query_engine.py:383-391 | each persistence id is among an entry's first two |
| `QueryEngine.CrossContextIdsFrom` | engine/query_engine.py:384-391 | each cross-context id is among an entry's first two |
| `QueryEngine.GatheredFrom` | engine/query_engine.py:380-393 | every gathered id was there already or is contributed by a conviction |
| `QueryEngine.RequestedIdsFacts` | engine/query_engine.py:380-404 | at most six distinct ids are asked for, each contributed by an activated conviction |
| `QueryEngine.CollectEvidenceIds` | engine/query_engine.py:381-391 | the evidence loop collects the first two ids of each entry, in list order |
| `QueryEngine.GatherIds` | engine/query_engine.py:380-393 | the gathering loop, with its `break`, gives the gathered ids |
| `QueryEngine.Unique` | engine/query_engine.py:398-403 | the `seen` loop removes repeats, keeping first occurrences in order |
| `QueryEngine.CollectRawSignals` | engine/query_engine.py:373-410 | `_collect_raw_signals` gives the store's answer for the requested ids, or nothing |
| `QueryEngine.PrimaryIds` | engine/query_engine.py:649 | the frame's primary conviction ids, in order |
| `QueryEngine.ActivateFromFrame` | engine/query_engine.py:648-652 | the frame-driven loop keeps the known convictions, in order |
| `QueryEngine.MatchStep` | engine/query_engine.py:631-645 | layers 1 and 2: the matched frame and its method; the question is embedded iff no reflex match |
| `QueryEngine.ActivateStep` | engine/query_engine.py:647-659 | step 2 activates the frame's convictions or else the index's; it embeds at most once |
| `QueryEngine.RunPipeline` | engine/query_engine.py:611-683 | the pipeline gives the modelled context and embeds the question exactly once on every path |
| `QueryEngine.PipelineMatch` | engine/query_engine.py:631-645 | "reflex" iff an active frame's keywords hit; "embedding" iff none did and the index matched; the matched frame is active |
| `QueryEngine.PipelineGrounded` | engine/query_engine.py:647-683 | convictions, traces and identities all come from the owner's cached records; temporal keywords choose the retrieval path; at most `trace_limit` traces (temporal path: for a limit of 3 or more); low confidence is the probes' verdict |
| `QueryEngine.PipelineRawSignals` | engine/query_engine.py:679-680 | the raw signals are the store's answer for at most six distinct ids the activated convictions contribute |
| `Seqs.SortBy` | engine/query_engine.py:286 | `sorted(s, key=...)`: ascending by key, a permutation of the input |
| `Seqs.Dedup` | engine/query_engine.py:398-403 | first occurrences, in order: distinct, the same elements, no longer |
| `Seqs.PyPrefix` | engine/trace_extractor.py:281 | `s[:k]` for any integer `k`: a prefix of the length Python gives, a negative `k` dropping from the end |
| `Seqs.Take` | engine/query_engine.py:287 | `s[:n]` has `min(n, len(s))` elements |
| `Seqs.MostCommon` | engine/conviction_detector.py:251 | `Counter(s).most_common(n)`: `min(n, distinct)` pairs, each an element with its count, counts not increasing |
| `Seqs.MostCommonKeys` | engine/conviction_detector.py:251 | the keys of those pairs, in order |
| `Seqs.MostCommonIsTop` | engine/frame_clusterer.py:118 | the keys are distinct, and no element left out outnumbers one kept |
| `Seqs.Mode` | engine/frame_clusterer.py:124 | `most_common(1)[0][0]` of a non-empty list: an element no other outnumbers |
| `Seqs.CounterOf` | engine/frame_clusterer.py:118 | `Counter(s).items()`: one pair per distinct element |
| `Seqs.SelectHas` | engine/trace_extractor.py:76-77 | a value is grouped under a key iff some position carries both |

## Left out

- Vector store, embeddings and clustering: chromadb, SentenceTransformer `encode`, `build_index`, sklearn clustering and the numpy cosine arithmetic are left out. Their answers are inputs: rankings, nearest distances, similarity matrices and cluster labels.
- Model calls and prompt text:
  - `call_llm` is not modelled, and neither are the prompt builders (`_build_*_prompt`, `_build_common_context`, digest and weekly prompts, `simulate`'s prompt).
  - Only the handling of a reply is modelled, with the reply given as a string.
  - The bounded-concurrency batching is not modelled.
- `batch_llm` is imported from `engine/llm.py`, which does not define it (engine/llm.py:1-42). As written, importing `engine/frame_clusterer.py`, `engine/identity_scanner.py` and `engine/trace_extractor.py` fails, and so does `_llm_confirm_duplicates` (engine/conviction_deduper.py:86). Each batch is modelled as one reply per prompt.
- `call_llm` has no `tier` parameter (engine/llm.py:30), but every call site passes one: engine/conviction_detector.py:155, engine/daily_batch.py:88, engine/daily_batch.py:215, engine/explorer.py:662, engine/identity_scanner.py:87, engine/query_engine.py:701 and engine/query_engine.py:774. The undefined `batch_llm` is also called with `tier` at engine/conviction_deduper.py:97. As written, each of those calls raises TypeError. The calls in `simulate` and in the query engine's answer text are left out anyway (see below). For the others the model treats each reply as given:
- ConvictionDetector.Detect: assumes the statement reply is given. As written, creating a new conviction raises at engine/conviction_detector.py:155.
- DailyBatch.RunDaily: assumes the digest reply is given. As written, a non-empty digest raises at engine/daily_batch.py:88.
- DailyBatch.RunWeekly: its `ensures o.Saved?` holds once the report reply is given. As written, every weekly run raises at engine/daily_batch.py:215.
- IdentityScanner.Scan: assumes the expressions are given. As written, generating them raises at engine/identity_scanner.py:87, inside `call_llm_single`.
- File and JSON I/O: loaders, savers, JSONL appends and `model_validate_json` are left out. Stores are in-memory sequences, and "written" means the new value of a file.
- JSON values of the wrong type are not modelled (a number where a string is expected, a list where an object is expected). Decoded replies and atoms are typed records whose keys may be missing. The source would raise on a wrong type, except in the trace extractor's `except (KeyError, ValueError, IndexError)` entries.
- Transport, configuration and scripts are left out: `engine/api.py`, `engine/cli.py`, `engine/mcp_server.py`, `engine/schemas_api.py`, `engine/config.py` and `run_full_extract.py`.
- `migrate` (migrate_atoms.py:173-215) is a file loop and is left out. `atom_to_signal` and `determine_direction_and_modality` are modelled.
- `recall` (engine/explorer.py:30-76) is a vector search and is left out. `Explorer.Explore` takes the recalled ids and distances as input.
- `simulate` (engine/explorer.py:583-673) is a prompt plus a model call and is left out.
- The query engine's answer text is left out: `query`, `ask` and `generate` call the model with `ctx.response`, and are formatting around the pipeline.
- Rounding:
  - the model computes with exact reals, and `round(x, 2)` is left out everywhere: strength score, activation weight, success rate, coverage, consistency, relevance, ratios and the decision feedback score;
  - `round(sim, 3)` on the reported similarity of a contradiction alert (engine/contradiction_alert.py:87) and `round(sim, 4)` on the similarities in the dedupe report and merge log (engine/conviction_deduper.py:279 and :329) are left out too: the model reports the similarity unrounded;
  - the boundaries are affected: a weight of 0.095 rounds to 0.1 and is kept by the source, but dropped by the model's `< 0.1` test;
  - a strength just under a level band can round up into it.
- Floating point in general: similarities, distances and scores are reals.
- Strings.Lower: case mapping covers only the ASCII letters. Python's `lower`/`upper` map all of Unicode and can change the length (`'ſ'.upper() == 'S'`). So "YEſ" passes the deduper's YES filter in the source but not in the model. This affects the reflex keyword match, the SKIP check, the YES filter, the hallucination blocklist, the tension-kind check and intent classification.
- Strings.Upper: ASCII only, for the same reason.
- Dates:
  - dates are day numbers (`calendar.dfy`), and string comparison of "YYYY-MM-DD" becomes integer comparison;
  - a malformed date would make `strptime` raise ValueError in the source, and the model cannot express that. This affects engine/conviction_detector.py:52, engine/daily_batch.py:32 and engine/decision_tracker.py:42-46;
  - `first_detected` is a required day in the model, so the falsy empty string the source tests for at engine/daily_batch.py:163 does not arise;
  - `date[:7]` is the civil year and month of the day number.
- The clock: `datetime.now()` and `date.today()` are parameters (`today`).
- Set iteration order:
  - where the source lists a Python `set`, the model uses first-occurrence order;
  - this covers the contexts of cross-context evidence (`ConvictionDetector.SpansContexts`, engine/conviction_detector.py:89-91), the merged domains (`ConvictionDeduper.MergeInto`, engine/conviction_deduper.py:303), and the explorer's connection lists and tension links (engine/explorer.py:522-569). The connections are modelled as sets, and the tension links follow a given order of topic A's ids;
  - the source's order is unspecified, so the model fixes one.
- Validation errors the source does not catch are not modelled as errors. The model builds the record anyway, and these bounds are not proved of it:
  - a generated statement over 200 characters in `detect`;
  - a trigger pattern over 100 characters or a `tone` outside its Literal in `cluster`;
  - an `IdentityExpression` whose fields have the wrong type at engine/identity_scanner.py:74-77, since the `except` at :80 catches only decode and key errors;
  - an activation weight over 1 (see Findings; the corrected weights are proved in [0, 1] by `FrameClusterer.FrameActivationsValid`).
- ConvictionDeduper.MergeRunClosed: needs both convictions of a confirmed pair to carry different ids (`PairIdsDiffer`). A conviction file repeating an id breaks it.
- IdentityScanner.ScanValid: needs no active frame to list a conviction twice among its primaries (`DistinctPrimaries`). Frames the clusterer writes satisfy this. A hand-edited frame listing an id twice counts twice, and coverage can then exceed 1, which `IdentityUniversality` refuses.
- IdentityScanner.ChosenShares: needs `DistinctPrimaries` as well, for the same reason.
- QueryEngine.TemporalTracesFacts: the bound of at most `limit` traces is stated for `limit >= 3`. For a limit of 0 or 1, `[:limit - 2 * third]` is a negative slice that keeps most of the middle, so the source can return more than `limit`. For 2 the bound holds but is not stated. The callers pass 5 and 8.
- QueryEngine.SpreadSorted: stated for `limit >= 3`, for the same reason.
- QueryEngine.RunPipeline: proves the question is embedded exactly once on every path. The comment at engine/query_engine.py:638 says a reflex hit skips the embedding, but step 3 (engine/query_engine.py:662-663) computes it anyway.
- ContradictionAlert.AlertsComplete: requires the active convictions to carry distinct ids. Nothing in the source enforces that on the loaded list, and with a repeated id the `checked` set (engine/contradiction_alert.py:62-71) skips a later pair that shares its two ids with an earlier one, so that pair yields no alert.
- ContradictionAlert.PairUnchecked: requires distinct active conviction ids for the same reason: with a repeated id, the ids of a pair can already be in `checked` when the pair is reached.
- Explorer.DirectionsAllOutput: requires distinct stored signal ids. The source keys `signal_map` by id (engine/explorer.py:377), so with a repeated id only the last signal of that id counts, and a cited non-output signal can be hidden behind a later output signal of the same id.
- Explorer.OutputOnlyMeans: requires distinct stored signal ids for the same reason (engine/explorer.py:377-378): without it, the source can call a conviction output-only while an earlier stored signal with a cited id is not an output.
- The authority weighting of conviction strength is modelled as written: the weight-table keys (engine/conviction_detector.py:187) match none of the authority literals (engine/models.py:72), so every signal weighs 0.8 (`ConvictionDetector.AuthorityWeightIsConstant`). The source gives no mapping from the four literals to the three keys, so no corrected weighting is modelled.
- Concurrency: `_cache` and `_tokens` are plain sequential state.

## Findings

| source | as written | input that shows it | evidently intended | confidence | as-written member | corrected member |
|---|---|---|---|---|---|---|
| engine/frame_clusterer.py:71-73 | every activation is counted, even when a trace lists the same conviction twice; the weight `count / trace_count` (line 119) can then exceed 1, and `ConvictionActivation(activation_weight <= 1)` (engine/models.py:245) raises out of `cluster` | three traces of one context, each activating conviction A twice: A's weight is 2.0 | a conviction counted once per trace, so a weight is the share of traces that activate it, in [0, 1] | not executed | `FrameClusterer.ActivationsAsWritten`, `FrameClusterer.OverweightActivation` | `FrameClusterer.FrameActivations`, `FrameClusterer.FrameActivationsValid` |
| engine/trace_extractor.py:227-231 | `_parse_group_response` receives the group's context but builds `TraceSource` without it, so every extracted trace is grouped under "other" by the clusterer (engine/frame_clusterer.py:61) | a chunk of "work" signals whose reply decodes to one well-formed entry: the trace has no context and lands in "other" | the trace records the context of the group it was extracted from | not executed | `TraceExtractor.ParsedAsWritten`, `TraceExtractor.ContextDropped` | `TraceExtractor.ParsedFacts`, `TraceExtractor.ParseGroup` |
| engine/conviction_deduper.py:321 | `id_map[secondary] = primary` never re-points earlier entries, and the rewrite is one hop (lines 133, 341); when a later pair merges an earlier primary into a third conviction, references to the first secondary are rewritten to a removed id | A 0.9, B 0.5, C 0.95, confirmed pairs (A, B) then (A, C): `id_map` is {B: A, A: C}, and B's references become A, which was removed | entries pointing at a newly merged-away id are re-pointed to its primary, so every reference lands on a surviving conviction | not executed | `ConvictionDeduper.ChainedMergeLeavesDanglingReference` | `ConvictionDeduper.MergeAllNoChains`, `ConvictionDeduper.ChainedMergeResolved` |

The rest of the model uses each corrected member:

- `FrameClusterer.Cluster` builds its frames from `FrameActivations`;
- `TraceExtractor.Extract` stores the group's context;
- `ConvictionDeduper.MergeConfirmed` re-points `id_map`.
